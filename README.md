# Intelligent SOC automation: a Dafny model of the alert pipeline

The system is a set of small Python services that talk over Redis
publish/subscribe channels:

- **Log tailer** (`adapters/log_adapter.py`): follows log files and publishes each new line on `raw_logs`.
- **Detectors**: read `raw_logs`, keep per-address sliding windows of recent events and publish alerts on `alerts`:
  - brute force (`detectors/bruteforce_detector.py`);
  - SSH brute force (`detectors/ssh_bruteforce_detector.py`);
  - port scan (`detectors/portscan_detector.py`);
  - web attack (`detectors/web_attack_detector.py`).
- **Orchestrator** (`orchestrator/orchestrator.py`):
  - turns each alert into a seven-field context for the decision makers;
  - deduplicates the actions that come back by a fingerprint of their canonical JSON text;
  - records blocked addresses and counters in the state object (`state/state_manager.py`).
- **Decision makers**:
  - a rule engine (`learner/learner.py`);
  - a language-model learner (`learner/llm_learner.py`), which cleans the model's reply and falls back to "monitor".
- **Responder** (`responders/responder.py`): deduplicates actions in its own key space and turns "block_ip" into an iptables command line.
- **Dashboard** (`dashboard/api.py`): keeps the last 1000 alerts and rolling counters, and builds block actions from requests.

## How the model is organised

One module per source file, plus shared helpers:

- `Wrappers`: `Option`.
- `Text`: character classes, `strip`/`replace`, digit runs, string order.
- `Json`: decoded JSON values and dict access. It also holds the canonical `json.dumps(..., sort_keys=True, separators=(",", ":"))` text.
- `Counting`: counter dicts and their sum.
- `SlidingWindow`: the window filter.
- `KeySpace`: the Redis keys with their expiry, under `SETNX` and `EXPIRE`.
- `Dedup`: the fingerprint.

**How the source's constructs are represented:**

- **Per-process state becomes classes.** Each detector's module-level dicts, the orchestrator's key space and `State`, the responder's keys, the dashboard's buffer and counters, the tailer's shared counters and each tail worker are classes. Their methods are proved equal to a pure step function. The properties are lemmas about those functions and about runs of them.
- **The clock, hashing and the language model are parameters.** The clock is a `real` parameter. SHA-1 is a function parameter left uninterpreted. The language model's reply and `json.loads` are parameters too (`None` for "raised").
- **Uncaught exceptions are explicit outcomes.** An exception that ends a consumer loop is an explicit outcome (`Crashed`, `Crash`, `Stopped`).
- **Regular expressions become extractors.** Each regex is an explicit extractor that follows Python's backtracking for that pattern. Greedy `.*` takes the last fitting position; `search` takes the leftmost.

Following one message across services (module `Pipeline`) shows this about the code as written:

- The rule engine (`learner/learner.py`) never sees the orchestrator's context. Its `main` looks the context up under a "context" key, which the orchestrator's seven-key context does not have, so it decides on `{}` and monitors every alert. It also publishes on "commands", which neither the orchestrator nor the responder reads.
- Were the rule engine given the context, it still would not act on the brute-force and web detectors' alerts. They are typed "bruteforce.alert" and "web.attack.alert", and the rule engine only acts on "bruteforce" and "anomaly".
- The SSH and port-scan detectors send no "id", and the orchestrator's `alert["id"]` raises on them.
- The context has no "features", so an anomaly alert routed through the orchestrator would be monitored even were the rule engine given its context.
- The dashboard's block endpoint publishes nothing, because `ENQUEUE_ACTIONS` is false. The language-model learner publishes whatever non-null JSON the model replies with on "actions". The orchestrator and the responder both consume that channel, and they agree on blocks: a `block_ip` reply with a truthy address is recorded and turned into the iptables command for that address, whatever the context was.

## Model

| member | source | states |
|---|---|---|
| LogAdapter.SplitWatch | adapters/log_adapter.py:156-159 | a value without ':' is rejected; otherwise it splits at the first ':' (path has no ':', path + ":" + label is the value) |
| LogAdapter.ParseWatches | adapters/log_adapter.py:154-160 | no --watch exits 2, any value without ':' exits 1, otherwise one (path, label) per value, in order, each the split of its value |
| LogAdapter.SharedStats.Increment | adapters/log_adapter.py:118-122 | count and this source's counter rise by one, other counters unchanged, and count stays the sum of the per-source counters |
| LogAdapter.OpenFile | adapters/log_adapter.py:54-62 | an existing path opens at the end of its file with its inode; a missing one gives (None, None) |
| LogAdapter.ReadLine | adapters/log_adapter.py:77 | reads the text after the position up to and including the first line break after it, or to the end when there is none; the new position is the end of the text or just past a line break; empty exactly at the end |
| LogAdapter.StripNewlines | adapters/log_adapter.py:103 | removes only trailing line breaks, and all of them |
| LogAdapter.StripReadLine | adapters/log_adapter.py:77-103 | a read line loses exactly its one final line break, if any |
| LogAdapter.Payload | adapters/log_adapter.py:104-109 | the payload carries source label, line, timestamp and file path |
| LogAdapter.HandleOkLater | adapters/log_adapter.py:54-60 | on an append-only disk an open handle stays readable and the text before its opening position never changes |
| LogAdapter.Append | adapters/log_adapter.py:78-99 | appending is a disk event that keeps every inode's earlier text |
| LogAdapter.Rotate | adapters/log_adapter.py:78-90 | rotation gives the path a new, empty inode and keeps the old one |
| LogAdapter.Remove | adapters/log_adapter.py:91-99 | deletion removes the path and keeps the inode's text |
| LogAdapter.Step | adapters/log_adapter.py:64-116 | one pass of the run loop keeps the handle within its file and after its opening position |
| LogAdapter.StepOpensAtEnd | adapters/log_adapter.py:68-75 | without a handle a missing file is waited for 2 s; an existing one is opened at its end, so nothing already in it is read |
| LogAdapter.StepPublishes | adapters/log_adapter.py:77-113 | a payload is published iff a non-empty line was read and Redis accepted it; it carries label, path and the next line after the handle position without its line break |
| LogAdapter.PublishFailureDropsLine | adapters/log_adapter.py:110-116 | a failed publish drops the line (position advances), publishes nothing and sleeps 1 s |
| LogAdapter.StepOnEmptyRead | adapters/log_adapter.py:78-101 | on an empty read a new inode is reopened at its end without sleeping, a vanished path clears the handle and sleeps 1 s, otherwise it polls 0.2 s |
| LogAdapter.RotationSkipsEarlyLines | adapters/log_adapter.py:78-90 | lines written to a rotated file before the worker notices are skipped |
| LogAdapter.TailWorker.Poll | adapters/log_adapter.py:64-116 | one pass equals Step, and the shared counters move by one for this source exactly when a payload is published |
| LogAdapter.TailWorker.Run | adapters/log_adapter.py:64-116 | over any append-only history every payload names this worker's label and path and the shared count rises by exactly the number published |
| BruteforceDetector.MatchIsQuad | detectors/bruteforce_detector.py:20-22 | the pattern only captures a dotted quad, from a line holding "Failed password for " |
| BruteforceDetector.Match | detectors/bruteforce_detector.py:20-22 | the `search` of the authentication-failure pattern, reduced to the captured address: the first line that holds a match decides, and within it the greedy `.*` takes the last one; the capture is stated by MatchIsQuad |
| BruteforceDetector.AlertMessage | detectors/bruteforce_detector.py:32-45 | the alert has id "alert-<ms>", type "bruteforce.alert", and the severity, address and attempts given |
| BruteforceDetector.Step | detectors/bruteforce_detector.py:49-75 | no match changes nothing; a match changes only its address's list, which becomes the old list plus now, pruned to the times within 10 s (so it ends with now and is never cleared); alert iff at least 5 remain, with stage "password_spray", severity "medium" and that count |
| BruteforceDetector.Detector.ProcessAuthLog | detectors/bruteforce_detector.py:49-75 | the in-place update of attempts_by_ip equals Step on the pattern's capture |
| BruteforceDetector.LineOf | detectors/bruteforce_detector.py:88-97 | invalid JSON and dicts without "line" are skipped; a line is delivered iff the dict's "line" is a string, and it is that string |
| BruteforceDetector.Detector.OnMessage | detectors/bruteforce_detector.py:84-97 | skipped messages leave the window untouched; delivered lines run Step |
| BruteforceDetector.ReplayWithin | detectors/bruteforce_detector.py:56-67 | whatever the clock does, an address's list only holds times of earlier matches for it |
| BruteforceDetector.AlertNeedsFiveRecent | detectors/bruteforce_detector.py:65-75 | an alert needs five matches for the address within the last 10 s |
| BruteforceDetector.FiveSpreadOutNoAlert | detectors/bruteforce_detector.py:65-73 | five matches whose first and last are more than 10 s apart never alert |
| BruteforceDetector.ReplayExact | detectors/bruteforce_detector.py:56-67 | with a monotone clock the list is exactly the matches within 10 s of the latest |
| BruteforceDetector.AlertIffFiveRecent | detectors/bruteforce_detector.py:69-75 | with a monotone clock a match alerts iff at least five matches lie in the last 10 s, reporting how many (the window is not cleared, so later matches alert again) |
| SshBruteforceDetector.MatchShape | detectors/ssh_bruteforce_detector.py:12-14 | a captured address is 7 to 15 digits and dots, from a message holding "Failed password" |
| SshBruteforceDetector.Match | detectors/ssh_bruteforce_detector.py:12-14 | the anchored `match` of the SSH failure pattern, on the first line only; its capture is stated by MatchShape |
| SshBruteforceDetector.AlertMessage | detectors/ssh_bruteforce_detector.py:24-33 | the alert has no "id", type "bruteforce.alert", source "detector", stage "ssh_bruteforce", severity "medium", the address and the count |
| SshBruteforceDetector.Step | detectors/ssh_bruteforce_detector.py:39-63 | no match changes nothing; a match changes only its address; alert iff the old list plus now, pruned to 10 s, holds at least 5, and then the list is reset to empty; otherwise the list becomes exactly that pruned list |
| SshBruteforceDetector.StepKeepsBelow | detectors/ssh_bruteforce_detector.py:58-63 | every stored list stays below 5 entries |
| SshBruteforceDetector.AlertIsFive | detectors/ssh_bruteforce_detector.py:51-63 | below the threshold before the call, an alert reports exactly 5 attempts |
| SshBruteforceDetector.ReplayBelow | detectors/ssh_bruteforce_detector.py:39-63 | every run from an empty map keeps all lists below 5 |
| SshBruteforceDetector.RunAlertsAreFive | detectors/ssh_bruteforce_detector.py:39-63 | every alert of every run from an empty map reports exactly 5 attempts |
| SshBruteforceDetector.Detector.OnMessage | detectors/ssh_bruteforce_detector.py:66-73 | the whole message text, not its "line", is matched and run through Step |
| SshBruteforceDetector.Detector.HandleLog | detectors/ssh_bruteforce_detector.py:39-63 | the in-place update of FAILED equals Step on the pattern's capture |
| SshBruteforceDetector.Detector.RecordFailure | detectors/ssh_bruteforce_detector.py:52-63 | the setdefault, append, filter and reset of FAILED[ip] equal Step on a matched address, and every list stays below 5 |
| PortscanDetector.MatchIsQuad | detectors/portscan_detector.py:11 | the captured address is a dotted quad |
| PortscanDetector.Match | detectors/portscan_detector.py:11 | the leftmost "from <quad> on port <digits>" and its two captures; the address is stated by MatchIsQuad |
| PortscanDetector.PortsOnly | detectors/portscan_detector.py:50 | the distinct ports of the buffer, ascending and without duplicates |
| PortscanDetector.AlertMessage | detectors/portscan_detector.py:18-27 | the alert has no "id", type "portscan.group.alert", the sorted ports, total_ports equal to their number, severity "high" |
| PortscanDetector.Step | detectors/portscan_detector.py:31-57 | no match changes nothing; a match changes only its address's pairs, which become the old pairs plus (now, port), pruned to those within 3 s (never cleared); alert iff at least 10 distinct ports remain and 3 s have passed since the last alert (default 0), and then now is recorded |
| PortscanDetector.Detector.ProcessLog | detectors/portscan_detector.py:31-57 | the in-place updates of both dicts equal Step on the pattern's capture |
| PortscanDetector.Detector.RecordPort | detectors/portscan_detector.py:40-57 | the in-place update of port_buffer[ip] and last_alert_time after a match equals Step |
| PortscanDetector.Detector.OnMessage | detectors/portscan_detector.py:59-66 | the whole message text, not its "line", is matched and run through Step |
| PortscanDetector.LastAfterStep | detectors/portscan_detector.py:53-57 | last_alert_time[ip] becomes now exactly when ip alerts |
| PortscanDetector.LastCoversAlerts | detectors/portscan_detector.py:53-57 | after any prefix of a run, last_alert_time[ip] is no earlier than any alert for ip in it |
| PortscanDetector.AlertsSpaced | detectors/portscan_detector.py:53-57 | any two alerts for the same address are at least 3 s apart, whatever the clock does |
| WebAttackDetector.OneOrMoreIsContains | detectors/web_attack_detector.py:15-19 | `(u)+` is found exactly where u is |
| WebAttackDetector.Matches | detectors/web_attack_detector.py:26-27 | `any(re.search(p, line))` over a pattern list; its patterns are related by OneOrMoreIsContains, OrOneEqualsOneHasQuote and PathTraversalImpliesLfi |
| WebAttackDetector.OrOneEqualsOneHasQuote | detectors/web_attack_detector.py:8-13 | a line matching `or\s+'1'='1'` also matches the quote pattern |
| WebAttackDetector.PathTraversalImpliesLfi | detectors/web_attack_detector.py:15-24 | every path-traversal match is also an LFI match |
| WebAttackDetector.Classify | detectors/web_attack_detector.py:49-59 | SQLi iff an SQLi pattern matches; LFI iff no SQLi pattern but an LFI one does; nothing iff no pattern matches |
| WebAttackDetector.PathTraversalUnreachable | detectors/web_attack_detector.py:53-59 | the Path Traversal branch is never taken |
| WebAttackDetector.Severity | detectors/web_attack_detector.py:38 | "high" exactly for SQLi and LFI, "medium" for Path Traversal |
| WebAttackDetector.EveryAlertHigh | detectors/web_attack_detector.py:38 | every alert the detector can raise has severity "high" |
| WebAttackDetector.QuoteIsSqli | detectors/web_attack_detector.py:9 | any line containing %27, ', --, %23 or # is SQLi |
| WebAttackDetector.ExtractIpFirst | detectors/web_attack_detector.py:46-47 | the address is the quad at the first position where one matches, "unknown" iff there is none |
| WebAttackDetector.ExtractIp | detectors/web_attack_detector.py:46-47 | the leftmost dotted quad, or "unknown"; stated by ExtractIpFirst |
| WebAttackDetector.ProcessLog | detectors/web_attack_detector.py:45-59 | at most one alert per line, iff the line is classified, with the extracted address, the class and the line |
| WebAttackDetector.AlertMessage | detectors/web_attack_detector.py:29-43 | the alert has id "web-<stamp>", type "web.attack.alert", source "detector", stage "web_attack", attack type, address, payload and the mapped severity |
| WebAttackDetector.LineOf | detectors/web_attack_detector.py:70-76 | invalid JSON, non-dicts and dicts without "line" are skipped; a line is delivered iff the dict's "line" is a string, and it is that string; a non-string line raises |
| KeySpace.SetIfAbsent | orchestrator/orchestrator.py:95 | SETNX writes a persistent key iff none is live, and the key is live afterwards |
| KeySpace.Expire | orchestrator/orchestrator.py:98 | EXPIRE sets a live key's deadline to now + ttl and leaves a dead key alone |
| KeySpace.ClaimEffect | orchestrator/orchestrator.py:95-98 | SETNX then EXPIRE succeeds iff the key is not live, and then the key is live until now + ttl; a refusal changes nothing |
| KeySpace.ClaimRefusedWithinTtl | responders/responder.py:57-62 | a claimed key refuses every claim within the ttl |
| KeySpace.ClaimAcceptedAfterTtl | responders/responder.py:57-62 | a claimed key is claimable again after the ttl |
| Json.DumpsIgnoresKeyOrder | orchestrator/orchestrator.py:78 | the sorted-key serialisation of two values equal up to key order is the same text |
| Json.Dumps | orchestrator/orchestrator.py:78 | `json.dumps(sort_keys=True, separators=(',', ':'))`; its independence from key order is DumpsIgnoresKeyOrder |
| Dedup.FingerprintIgnoresKeyOrder | orchestrator/orchestrator.py:77-79 | actions differing only in key order have the same fingerprint, whatever the hash |
| Dedup.Fingerprint | orchestrator/orchestrator.py:77-79 | the hash of the canonical text, shared by the orchestrator and the responder (responders/responder.py:23-29); stated by FingerprintIgnoresKeyOrder |
| Orchestrator.ProcessAlertOutcome | orchestrator/orchestrator.py:24-50 | invalid JSON returns None; a context is built iff the alert is a dict with "id"; anything else raises |
| Orchestrator.ContextOf | orchestrator/orchestrator.py:39-47 | the seven-key context; its keys and values are stated by ContextKeys and ContextValues |
| Orchestrator.ContextKeys | orchestrator/orchestrator.py:39-47 | the context has exactly the seven keys id, type, source, severity, ip, stage, attempts, each once |
| Orchestrator.ContextValues | orchestrator/orchestrator.py:39-47 | each context key holds the alert's value or its default ("unknown", "detector", "low", None, "", 0) |
| Orchestrator.ContextAlwaysSent | orchestrator/orchestrator.py:155-158 | a built context is always truthy, so it is always sent on |
| Orchestrator.AlertCounted | orchestrator/orchestrator.py:29-37 | the alert counter rises by one iff a context is built; invalid JSON and missing ids leave it |
| Orchestrator.Dispatch | orchestrator/orchestrator.py:112-132 | a block_ip action with params.ip has exactly the effect of add_blocked_ip for that address (appended if absent, last_action "Blocked <ip>"), so the counters are kept and at most that address is added; alert_admin, monitor, unknown names and missing fields change nothing |
| Orchestrator.BlockTarget | orchestrator/orchestrator.py:115-118 | the address `action["params"]["ip"]` that a block_ip action adds, if it has one; used by Dispatch and the Pipeline lemmas |
| Orchestrator.HandleStepEffect | orchestrator/orchestrator.py:82-136 | invalid JSON changes nothing; a live key drops the action with keys and state unchanged; otherwise it is counted and dispatched and the key lives 30 s; a failing SETNX proceeds as new, a failing EXPIRE leaves the key forever |
| Orchestrator.Deduplicate | orchestrator/orchestrator.py:93-100 | SETNX then EXPIRE inside the `try`: a healthy store claims the key, a failing SETNX lets the action through, a failing EXPIRE leaves the key without expiry; stated by HandleStepEffect and ExpireFailureBlocksForever |
| Orchestrator.HandleStep | orchestrator/orchestrator.py:82-136 | one `handle_action`: parse, deduplicate, count, dispatch; stated by HandleStepEffect |
| Orchestrator.DuplicateWithinTtlIgnored | orchestrator/orchestrator.py:90-98 | within 30 s, a copy of an accepted action, even reordered, changes neither keys nor state |
| Orchestrator.AcceptedAgainAfterTtl | orchestrator/orchestrator.py:74 | after 30 s the same action is counted and dispatched again |
| Orchestrator.ExpireFailureBlocksForever | orchestrator/orchestrator.py:94-100 | when EXPIRE fails after SETNX the action is ignored forever after |
| Orchestrator.DecisionCountedOnce | orchestrator/orchestrator.py:106-109 | the decision counter rises by exactly one iff the action passed deduplication, whatever its name; alerts are not touched |
| Orchestrator.HandleKeepsBlockedDistinct | orchestrator/orchestrator.py:112-118 | the blocked list stays duplicate-free and gains at most the action's params.ip |
| Orchestrator.Router.ProcessAlert | orchestrator/orchestrator.py:24-50 | the outcome is ProcessAlertOutcome and the state is AlertCounted |
| Orchestrator.Router.HandleAction | orchestrator/orchestrator.py:82-136 | keys and state change as HandleStep says |
| Orchestrator.Router.OnMessage | orchestrator/orchestrator.py:142-161 | "alerts" builds and forwards a context (or stops on a raise), "actions" runs handle_action, other channels change nothing |
| StateManager.State.constructor | state/state_manager.py:11-19 | no blocked addresses, both counters 0, no last action |
| StateManager.WithBlocked | state/state_manager.py:52-57 | an absent address is appended and becomes the last action "Blocked <ip>"; a present one changes nothing |
| StateManager.BlockedStaysDistinct | state/state_manager.py:52-54 | the list stays duplicate-free and holds exactly the old addresses and the new one |
| StateManager.BlockIdempotent | state/state_manager.py:52-57 | blocking twice is blocking once |
| StateManager.WithAlertCounted | state/state_manager.py:62-64 | total_alerts rises by one, nothing else changes |
| StateManager.WithDecisionCounted | state/state_manager.py:69-71 | total_decisions rises by one, nothing else changes |
| StateManager.State.AddBlockedIp | state/state_manager.py:52-57 | the record becomes WithBlocked and stays duplicate-free |
| StateManager.State.IncreaseAlertCount | state/state_manager.py:62-64 | the record becomes WithAlertCounted |
| StateManager.State.IncreaseDecisionCount | state/state_manager.py:69-71 | the record becomes WithDecisionCounted |
| StateManager.State.Get | state/state_manager.py:76-77 | `get` returns the record (by value, see Left out) |
| Learner.DecisionNamesClosed | learner/learner.py:11-74 | every decision is a name/params dict named block_ip, alert_admin, monitor or rate_limit; only anomaly contexts can raise |
| Learner.DecideAction | learner/learner.py:11-74 | `decide_action`, None where it raises; stated by DecisionNamesClosed, BruteforceDecision, AnomalyDecision and OtherTypesMonitored |
| Learner.BruteforceDecision | learner/learner.py:25-48 | "high" blocks exactly {ip}, "medium" alerts "Suspicious activity from <ip>", anything else monitors |
| Learner.AnomalyDecision | learner/learner.py:53-66 | an integer rate above 100 is rate limited with that value, otherwise (0 when absent) monitored |
| Learner.OtherTypesMonitored | learner/learner.py:71-74 | any other type is monitored with empty params |
| Learner.HandleRequest | learner/learner.py:90-102 | bad JSON is skipped, a non-dict message stops the loop, a dict without "context" is decided as `{}` and published as monitor, and anything published is a decision of decide_action |
| LlmLearner.CleanJson | learner/llm_learner.py:40-41 | an empty text is returned unchanged |
| LlmLearner.CleanJsonShape | learner/llm_learner.py:43-53 | the result has no backtick and no leading or trailing whitespace |
| LlmLearner.CleanJsonIdempotent | learner/llm_learner.py:34-53 | cleaning a cleaned text changes nothing |
| LlmLearner.FencedBlockYieldsBody | learner/llm_learner.py:45-49 | a ```json fenced block yields its bare body |
| LlmLearner.AskDecision | learner/llm_learner.py:59-83 | `ask_gemini`: None when the call fails or the cleaned, stripped reply is not JSON, else the parsed reply |
| LlmLearner.MonitorFallback | learner/llm_learner.py:134-135 | the fallback `{"name": "monitor"}`; stated harmless by Pipeline.FallbackIsHarmless |
| LlmLearner.FinalAction | learner/llm_learner.py:134-135 | a missing decision or JSON null becomes {"name": "monitor"}, anything else is kept |
| LlmLearner.OnDecisionRequest | learner/llm_learner.py:118-139 | a context that is not JSON is skipped; otherwise one non-null action is published, the monitor fallback when the call fails |
| Responder.CommandRoundTrip | responders/responder.py:82 | the command is "sudo iptables -A INPUT -s " + str(ip) + " -j DROP" and the address text can be read back from it |
| Responder.BlockCommand | responders/responder.py:82 | the iptables text for `str(ip)`; stated by CommandRoundTrip |
| Responder.Respond | responders/responder.py:73-94 | a command is only ever a block command for some address |
| Responder.BlockIffIp | responders/responder.py:73-90 | exactly one command iff the name is block_ip and params (default {}) holds a truthy ip, and it is the command for that ip; an admin alert iff the name is alert_admin with dict params, showing str of "message" (default "") |
| Responder.OtherNamesIgnored | responders/responder.py:92-94 | every other name, monitor included, takes the unknown branch |
| Responder.RespondStepEffect | responders/responder.py:44-62 | invalid JSON writes no key; a live key skips with keys unchanged; otherwise the key lives 30 s and the action is handled |
| Responder.RespondStep | responders/responder.py:44-94 | one loop pass on the key store: parse, claim the key for 30 s, handle; stated by RespondStepEffect, DuplicateIffLive and DuplicateWindow |
| Responder.DuplicateIffLive | responders/responder.py:53-62 | a message is a duplicate iff its key is live, and a handled one sets its key for 30 s |
| Responder.DuplicateWindow | responders/responder.py:20 | a copy of a handled action, even reordered, is a duplicate for exactly the next 30 s |
| Responder.Responder.OnMessage | responders/responder.py:35-94 | one loop pass changes the keys and responds as RespondStep says |
| Dashboard.Buffered | dashboard/api.py:34-36 | the buffer grows by one up to 1000 and then keeps its length; it ends with the new alert and before it keeps the newest old alerts in order, losing at most the oldest |
| Dashboard.Received | dashboard/api.py:33 | received_at is added only when absent |
| Dashboard.CountedKeepsSums | dashboard/api.py:39-43 | total and the type and severity counters each rise by one, so both maps keep summing to total |
| Dashboard.CountedBounded | dashboard/api.py:39-43 | whatever the alert, no map's sum exceeds total |
| Dashboard.Counted | dashboard/api.py:39-43 | total rises by one; only the alert's own type counter moves, by one, when the type is hashable; only its severity counter moves, by one, when both are hashable |
| Dashboard.Store.AddAlert | dashboard/api.py:31-43 | the buffer and counters change as Buffered and Counted say, keeping at most 1000 alerts |
| Dashboard.SliceFrom | dashboard/api.py:51 | a slice from a negative start is a suffix of the list |
| Dashboard.GetAlertsNewestFirst | dashboard/api.py:49-57 | without since, the newest limit alerts newest first; limit 0 returns the whole buffer |
| Dashboard.GetAlertsSince | dashboard/api.py:52-54 | with since, exactly the alerts among the newest limit received after since |
| Dashboard.GetAlertsSinceNewestFirst | dashboard/api.py:49-57 | with since, the result is the newest limit alerts read at the kept positions from the last: newest first, each kept occurrence once |
| Dashboard.GetAlerts | dashboard/api.py:46-57 | `get_alerts` on decoded arguments; stated by GetAlertsNewestFirst, GetAlertsSince and GetAlertsSinceNewestFirst |
| Dashboard.AfterMembers | dashboard/api.py:54 | the filter keeps an alert iff its received_at compares greater than since |
| Dashboard.KeptPositions | dashboard/api.py:54 | the positions the comprehension keeps: each position received after since exactly once, in increasing order |
| Dashboard.AfterSnoc | dashboard/api.py:54 | the comprehension never reorders: a later alert is kept at the end or dropped |
| Dashboard.AfterAtPositions | dashboard/api.py:54 | the filtered list is the list read at the kept positions, in order |
| Dashboard.Store.GetStats | dashboard/api.py:60-69 | current_buffer is the buffer length, at most 1000, and total_received the total |
| Dashboard.BlockIp | dashboard/api.py:72-99 | a falsy body or a missing, empty or falsy ip gives 400; a truthy non-dict body raises (500); a dict with a truthy ip is accepted with name block_ip, params ip and reason (default "blocked via dashboard") and meta source dashboard with the timestamp |
| Pipeline.DedupKeysDisjoint | responders/responder.py:54 | the responder's keys never collide with the orchestrator's "orch:dedupe:" keys |
| Pipeline.TailedLineReachesDetectors | adapters/log_adapter.py:104-111 | a tailed line reaches the web and brute-force detectors as that same line |
| Pipeline.IdlessAlertsStopOrchestrator | orchestrator/orchestrator.py:35 | SSH and port-scan alerts make the orchestrator raise on alert["id"] |
| Pipeline.RuleEngineSeesEmptyContext | learner/learner.py:96-102 | as written, every context the orchestrator sends (orchestrator/orchestrator.py:39-47) is decided as `{}`, i.e. monitored, and published on "commands", which the orchestrator and the responder do not read |
| Pipeline.DetectorAlertsOnlyMonitored | learner/learner.py:71-74 | even were decide_action given their context, brute-force and web detector alerts would be monitored whatever their severity |
| Pipeline.OtherAlertTypesMonitored | orchestrator/orchestrator.py:39-47 | were decide_action given the orchestrator's context, a type other than bruteforce and anomaly would be monitored |
| Pipeline.AnomalyAlertsMonitored | learner/learner.py:53-66 | were decide_action given the orchestrator's context, an anomaly alert would be monitored, as the context carries no features |
| Pipeline.HighBruteforceBlocked | learner/learner.py:25-35 | were decide_action given the orchestrator's context and its action delivered on "actions", a high bruteforce alert would block its ip in the orchestrator and, if truthy, yield the responder's command for it; as written the rule engine monitors it |
| Pipeline.DashboardBlockReachesResponder | dashboard/api.py:79-96 | the dashboard's block action, were it published, would be recorded by the orchestrator and become the responder's command for the requested ip; as written it is not published |
| Pipeline.BlockConsumersAgree | responders/responder.py:73-85 | an action the orchestrator records as a block of a truthy address (orchestrator/orchestrator.py:115-118) is the responder's command for that address |
| Pipeline.LlmReplyReachesResponder | learner/llm_learner.py:131-139 | a reply naming block_ip with a truthy address is published as is, recorded by the orchestrator and issued by the responder as that block |
| Pipeline.FallbackIsHarmless | learner/llm_learner.py:134-135 | the monitor fallback changes no state and issues no command |

## Left out

- Redis transport: publish/subscribe, listen loops and `publish` calls. Published messages are results of the step functions, and the order of the channels is not modelled.
- Dedup atomicity: `setnx` and `expire` are separate calls, not one atomic operation. The key space is a local map updated in sequence. Redis failures are a parameter of the orchestrator step (`RedisFault`).
- The responder's Redis calls and `os.system` are outside its `try`. Their failures, and the command's execution and exit status, are not modelled; only the command text is.
- Threads, locks, the health thread, `stop()` and the sleeps. Each poll pass reports the pause it would sleep.
- Wall clock, `uuid`, ISO timestamps and printed output. The clock is a `real` parameter; ids and timestamps are opaque text parameters.
- Float arithmetic on the clock: `time.time()` is a float, and window tests such as `now - t <= 10` and `now - last >= 3` can round differently at the edges. The model compares exact reals.
- Copy-and-truncate log rotation: the modelled disk only appends, renames and removes. A file truncated in place, which leaves the tailer's position past the end, is not modelled.
- `detectors/detector.py` is not part of this model: it is a numeric machine-learning detector.
- SHA-1 is an uninterpreted function parameter. Only the canonical JSON text fed to it is modelled.
- `learner/llm_learner.py`: the Gemini client, the API-key check and `build_prompt`. The reply text and `json.loads` are parameters.
- `learner/learner.py` `main`: the Redis subscription and the publish itself. Learner.HandleRequest models one pass of its loop, and the channel it publishes on is the constant Learner.DecisionChannel.
- `state/state_manager.py` `load`/`save` (file I/O), so the record starts from the defaults. `get` returns the record by value; the aliasing of the returned dict is not modelled.
- `dashboard/api.py` Flask layer, CORS, `jsonify`, query parsing (`int(limit)`, the default of 200) and `listen_for_alerts`. The endpoint functions take the decoded inputs.
- `dashboard/ui/src/Dashboard.js` is not part of this model.
- Json: JSON numbers are integers. Floats and their text are not modelled.
- Json.Repr: strings inside lists and dicts are quoted with single quotes without escaping, a simplification of Python's `repr`. It only matters for `str()` of a non-string address.
- StateManager.WithBlocked: membership uses structural equality of decoded values. Python's `1 == True` and `1 == 1.0` are not modelled.
- Dashboard.Counted: counter keys are decoded values compared structurally, with the same caveat as StateManager.WithBlocked.
- Text.Lower, Text.IsDigit: `(?i)` and `\d` are read as ASCII. Python's Unicode case folding (for example the Kelvin sign matching "k") and non-ASCII decimal digits are not modelled. `\s` and `str.strip()` use Python's full `isspace` set.
- Text.IsWordChar, BruteforceDetector.Match: `\w` is read as ASCII letters, digits and `_`. Python's `\w` also matches non-ASCII letters, so a line such as "Failed password for josé from 1.2.3.4" matches in Python and not in the model.
- LogAdapter.ReadLine: text decoding (`errors="ignore"`) and universal-newline translation are not modelled. The file is already-decoded text with "\n" line breaks.
- LogAdapter.Step: `os.stat` errors other than a missing file are not modelled. A reopen that fails in the same pass is not modelled either, because the disk is one snapshot per pass.
- LogAdapter.TailWorker.Run: the loop runs once per observed disk snapshot, not until `stop()`.
