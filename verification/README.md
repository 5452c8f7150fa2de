# Samson Datadog deploy gate

A Dafny model of the deploy health gate of Samson's Datadog plugin
(`plugins/datadog/lib/samson_datadog/samson_plugin.rb`), with proofs of its properties.

The gate has two hooks:

- **`store_validation_monitors`** runs before a deploy and stores a baseline list on the deploy. The list holds the monitors of every monitor query that declares a failure behaviour, in query order. Monitors that are already in `"Alert"` are left out.
- **`validate_deploy`** runs after a successful deploy. It polls that list once a minute for `max(check_duration) / 60 + 1` rounds.
  - In a round with no alert, it drops the monitors whose check window has elapsed. It returns `true` once none are left.
  - In a round where some monitors alert, it applies each alerting monitor's failure behaviour and the deploy fails:
    - `redeploy_previous` sets the deploy's `redeploy_previous_when_failed` flag;
    - `fail_deploy` does nothing;
    - any other value raises `ArgumentError`.
  - If the rounds run out, the deploy fails.

The project has three modules:

- `DatadogMonitor` (`monitor.dfy`): monitors and monitor queries as values. It also holds `failure_behavior?`, `check_duration.to_i` and the maximum check window.
- `DeployValidation` (`validation.dfy`): the gate as functions on values. It has the baseline pipeline, one polling round (`Round`), the whole gate (`Run`) and the failure-behaviour dispatch (`Dispatch`). All the lemmas about them are here too.
- `SamsonDatadog` (`plugin.dfy`): the objects the hooks change in place, and the hooks themselves as methods. Each method is proved to end in the state and verdict the value-level functions compute.
  - The objects are the `Deploy`, the Datadog `MonitorApi` and the job's `JobOutput`.
  - `GateLoop` is the `iterations.times` loop. It is proved against `Run`.
  - `ApplyFailureBehaviors` is the `alerting.each` loop. It is proved against `Dispatch`.

The monitor list is aliased:

- `presence` returns the deploy's own array, so `reject!` prunes the list stored on the deploy.
- The model therefore prunes `Deploy.monitorsForValidation` itself.
- Whatever is left on the deploy when the gate ends is part of the proved final state.

The Datadog API is an input:

- `MonitorApi.alertBeforeDeploy(m)` is whether `m` is in `"Alert"` when the baseline is taken.
- `MonitorApi.alertInRound(m, i)` is whether it is in `"Alert"` after the refresh of round `i`.
- `MonitorApi.ReloadAll` logs each refresh batch, so the number and content of refreshes can be stated.

Verdicts and output:

- The `ArgumentError` raised for an unsupported failure behaviour is the verdict `Unsupported(monitor)`.
- The flag and output lines written before the raise stay written.
- Output lines are the `Line` datatype: the no-alert line with its optional "N min remaining", the alert line with the alerting monitors, and the redeploy notice.

## Model

| member | source | states |
|---|---|---|
| DatadogMonitor.MaxCheckSeconds | plugins/datadog/lib/samson_datadog/samson_plugin.rb:27 | the largest `check_duration.to_i` of a non-empty list: no monitor's window exceeds it and some monitor's window equals it |
| DatadogMonitor.CheckSeconds | plugins/datadog/lib/samson_datadog/samson_plugin.rb:27 | definition of `check_duration.to_i` on nil or an integer (nil reads as 0 seconds); its contract repeats that case split and is no proof; the pruning and round-count properties (Prune, PruneEmpty, MaxCheckSeconds, Iterations) are stated in these seconds |
| DatadogMonitor.HasFailureBehavior | plugins/datadog/lib/samson_datadog/samson_plugin.rb:16 | `failure_behavior?`: an empty behaviour is not declared, and either supported behaviour is; WithFailureBehavior, ValidationMonitors and NoFailureBehaviorNoGate state what the selection keeps |
| DatadogMonitor.Supported | plugins/datadog/lib/samson_datadog/samson_plugin.rb:49-54 | the two values the `case` handles; both are non-blank, so a query declaring either one takes part in the gate; DispatchSpec, AlertEndsGate and UnsupportedCulprit state what happens to the others |
| DeployValidation.WithFailureBehavior | plugins/datadog/lib/samson_datadog/samson_plugin.rb:16 | keeps exactly the queries whose failure behaviour is not blank, and never lengthens the list |
| DeployValidation.FlatMonitors | plugins/datadog/lib/samson_datadog/samson_plugin.rb:17 | a monitor is in the flattened list exactly when it belongs to one of the queries |
| DeployValidation.RejectAlerting | plugins/datadog/lib/samson_datadog/samson_plugin.rb:18 | keeps exactly the monitors not in `"Alert"` before the deploy, and never lengthens the list |
| DeployValidation.ValidationMonitors | plugins/datadog/lib/samson_datadog/samson_plugin.rb:13-18 | a monitor is stored exactly when a query with a failure behaviour contains it and it was not alerting before the deploy; the stored list is at most as long as all the queries' monitors together |
| DeployValidation.FlatSelectedShorter | plugins/datadog/lib/samson_datadog/samson_plugin.rb:16-17 | selecting queries before flattening never gives more monitors than flattening all of them |
| DeployValidation.FlatConcat | plugins/datadog/lib/samson_datadog/samson_plugin.rb:17 | flattening keeps query order: it distributes over concatenation of query lists |
| DeployValidation.SelectConcat | plugins/datadog/lib/samson_datadog/samson_plugin.rb:16 | selecting queries keeps their order: it distributes over concatenation |
| DeployValidation.RejectConcat | plugins/datadog/lib/samson_datadog/samson_plugin.rb:18 | dropping alerting monitors keeps order: it distributes over concatenation |
| DeployValidation.ValidationMonitorsInQueryOrder | plugins/datadog/lib/samson_datadog/samson_plugin.rb:13-18 | the stored list is the first query's non-alerting monitors (when that query has a failure behaviour, nothing otherwise) followed by the list for the remaining queries; no queries give the empty list |
| DeployValidation.NoFailureBehaviorNoGate | plugins/datadog/lib/samson_datadog/samson_plugin.rb:16 | when no query declares a failure behaviour the stored list is empty, so the gate has nothing to check |
| DeployValidation.StoredMonitorsDeclareBehavior | plugins/datadog/lib/samson_datadog/samson_plugin.rb:13-18 | when each query's monitors carry that query's settings, every stored monitor has a non-blank failure behaviour |
| DeployValidation.Iterations | plugins/datadog/lib/samson_datadog/samson_plugin.rb:26-27 | the round count as written, with floor division: the last round starts at or before the longest window, and a minute later would be past it |
| DeployValidation.CeilIterations | plugins/datadog/lib/samson_datadog/samson_plugin.rb:27 | the corrected round count: the last round starts at or after the longest window, and less than a minute after it |
| DeployValidation.Alerting | plugins/datadog/lib/samson_datadog/samson_plugin.rb:31 | selects exactly the monitors in `"Alert"` after the refresh of the round; AlertingConcat states that it keeps the list's order, AlertingShorter that it repeats no monitor, and AlertingEmpty when it is empty |
| DeployValidation.AlertingEmpty | plugins/datadog/lib/samson_datadog/samson_plugin.rb:31-34 | no monitor is selected exactly when none of the list alerts in that round |
| DeployValidation.AlertingConcat | plugins/datadog/lib/samson_datadog/samson_plugin.rb:31 | the selection keeps the order of the deploy's list: it distributes over concatenation, so "first" and "before" in DispatchSpec and AlertEndsGate are in list order |
| DeployValidation.AlertingShorter | plugins/datadog/lib/samson_datadog/samson_plugin.rb:31 | the selection is never longer than the list it selects from, so no monitor is alerted on twice |
| DeployValidation.Prune | plugins/datadog/lib/samson_datadog/samson_plugin.rb:38 | keeps exactly the monitors whose check window exceeds the elapsed time; empty exactly when every window has elapsed; never longer than its input |
| DeployValidation.PruneConcat | plugins/datadog/lib/samson_datadog/samson_plugin.rb:38 | pruning keeps the relative order of the survivors: it distributes over concatenation |
| DeployValidation.PruneTwice | plugins/datadog/lib/samson_datadog/samson_plugin.rb:38 | pruning at an earlier and then a later time is pruning at the later time, so successive rounds compose |
| DeployValidation.PruneEmpty | plugins/datadog/lib/samson_datadog/samson_plugin.rb:38-39 | a non-empty list prunes to nothing exactly when the elapsed time has reached its longest check window |
| DeployValidation.Dispatch | plugins/datadog/lib/samson_datadog/samson_plugin.rb:48-56 | applying failure behaviours only appends to the output |
| DeployValidation.FirstUnsupported | plugins/datadog/lib/samson_datadog/samson_plugin.rb:49-54 | the position of the first alerting monitor whose failure behaviour is neither `redeploy_previous` nor `fail_deploy`, or the list's length |
| DeployValidation.NoAlertsLine | plugins/datadog/lib/samson_datadog/samson_plugin.rb:35-36 | definition of the no-alert line: it carries the remaining round count exactly when that count is positive; its contract repeats that case split and is no proof; QuietRound places it in round `i` of `n` with count `n - i - 1` |
| DeployValidation.DispatchSpec | plugins/datadog/lib/samson_datadog/samson_plugin.rb:48-56 | the error names the first monitor with an unsupported behaviour, and no error without one; the redeploy flag ends set exactly when it was set before or a `redeploy_previous` monitor comes before that point |
| DeployValidation.Round | plugins/datadog/lib/samson_datadog/samson_plugin.rb:30-57 | one iteration: it refreshes the whole current list once, always writes output, keeps only monitors it started with, continues only with a non-empty list and an untouched flag, and passes only with an emptied list; QuietRound and AlertEndsGate state its two branches |
| DeployValidation.Run | plugins/datadog/lib/samson_datadog/samson_plugin.rb:29-60 | the `iterations.times` loop with the fall-through `false`: `true` only with the deploy's list emptied, output only appended; RunBoundedRounds, RunNeverGrows, RunPassesIffEmptied, UnsupportedCulprit, AlertEndsGate and QuietRun state the rest |
| DeployValidation.QuietRound | plugins/datadog/lib/samson_datadog/samson_plugin.rb:30-42 | a round without alerts refreshes the whole list once, keeps exactly `Prune` of the list at `i*60` (so the survivors keep their order, by PruneConcat), leaves the flag alone, writes one line showing the remaining round count `n - i - 1` only when positive, and ends the gate exactly when the list is empty |
| DeployValidation.AlertEndsGate | plugins/datadog/lib/samson_datadog/samson_plugin.rb:45-60 | the first round with an alert ends the gate without passing, after exactly that round's one refresh and with the list unpruned; the verdict is `false` exactly when every alerting monitor has a supported behaviour, and the error otherwise; the error names the first alerting monitor with an unsupported behaviour, and the flag ends set exactly when it was set or a `redeploy_previous` monitor precedes that one; the alert line listing the alerting monitors comes before any line the behaviours write |
| DeployValidation.RunBoundedRounds | plugins/datadog/lib/samson_datadog/samson_plugin.rb:29-30 | the gate makes at most as many refreshes as rounds scheduled, only appends to the refresh log, and only ever refreshes monitors of its starting list |
| DeployValidation.RunNeverGrows | plugins/datadog/lib/samson_datadog/samson_plugin.rb:29-60 | the deploy's list never gets longer and never gains a monitor, the redeploy flag is never cleared, and output is only appended |
| DeployValidation.RunPassesIffEmptied | plugins/datadog/lib/samson_datadog/samson_plugin.rb:38-39 | starting with monitors, the gate returns `true` exactly when the deploy's list ends empty |
| DeployValidation.UnsupportedCulprit | plugins/datadog/lib/samson_datadog/samson_plugin.rb:48-56 | an `ArgumentError` names a monitor of the starting list whose behaviour is unsupported; with only supported behaviours it never raises |
| DeployValidation.QuietRunStep | plugins/datadog/lib/samson_datadog/samson_plugin.rb:34-42 | a round without alerts passes if pruning empties the list and otherwise the gate continues from the pruned state in the next round |
| DeployValidation.PolledNext | plugins/datadog/lib/samson_datadog/samson_plugin.rb:38-39 | with no alerts, the list at each round holds exactly the monitors whose window exceeds the time of the previous round; it empties exactly when the longest window has elapsed |
| DeployValidation.QuietRunVerdict | plugins/datadog/lib/samson_datadog/samson_plugin.rb:29-60 | a gate that sees no alert passes at the first round starting at or after the end of the longest window and fails when the rounds run out first |
| DeployValidation.QuietVerdictPasses | plugins/datadog/lib/samson_datadog/samson_plugin.rb:29-60 | that verdict is `true` exactly when a round is left and the last round starts at or after the end of the longest window, and `false` otherwise |
| DeployValidation.QuietRun | plugins/datadog/lib/samson_datadog/samson_plugin.rb:29-60 | from any round, a gate without alerts passes exactly when its last round starts at or after the end of the longest window; it never raises |
| DeployValidation.QuietGateVerdict | plugins/datadog/lib/samson_datadog/samson_plugin.rb:27-60 | as written, a gate that never sees an alert passes exactly when the longest check window is a non-negative multiple of 60 seconds, and fails otherwise |
| DeployValidation.NinetySecondWindowFails | plugins/datadog/lib/samson_datadog/samson_plugin.rb:27 | as written, one monitor with a 90 second window that never alerts gets two rounds and fails the deploy |
| DeployValidation.CeilingQuietGateVerdict | plugins/datadog/lib/samson_datadog/samson_plugin.rb:27 | with the round count rounded up, a gate that never sees an alert passes whenever its longest window exceeds minus one minute, so for every non-negative window |
| DeployValidation.NinetySecondWindowPassesRoundedUp | plugins/datadog/lib/samson_datadog/samson_plugin.rb:27 | with the round count rounded up, the 90 second monitor gets three rounds and passes |
| SamsonDatadog.MonitorApi.ReloadAll | plugins/datadog/lib/samson_datadog/samson_plugin.rb:30 | one refresh of the whole batch is logged |
| SamsonDatadog.JobOutput.Puts | plugins/datadog/lib/samson_datadog/samson_plugin.rb:36 | appends one line to the job output |
| SamsonDatadog.StoreValidationMonitors | plugins/datadog/lib/samson_datadog/samson_plugin.rb:13-18 | stores on the deploy exactly the baseline list, whose members are the non-alerting monitors of queries with a failure behaviour |
| SamsonDatadog.ValidateDeploy | plugins/datadog/lib/samson_datadog/samson_plugin.rb:21-61 | returns `true` and changes nothing (no refresh, no output, no pruning) when the deploy did not succeed or the list is empty; otherwise ends in exactly the verdict and state of the gate run for `Iterations` rounds; an error names a listed monitor with an unsupported behaviour; the list only shrinks and the flag is never cleared |
| SamsonDatadog.GateLoop | plugins/datadog/lib/samson_datadog/samson_plugin.rb:29-60 | the loop with its early `return true`, `raise` and `break` ends in exactly the verdict and the deploy, API and output state of the gate run |
| SamsonDatadog.ApplyFailureBehaviors | plugins/datadog/lib/samson_datadog/samson_plugin.rb:48-56 | the loop over the alerting monitors ends with the flag, the output and the error of the dispatch |

## Left out

- `send_notification` and `DatadogNotification`: notification delivery through code that is not part of this model.
- The Rails `Engine`, the `Samson::Hooks` view and callback registrations and the permitted-params list: framework wiring with no behaviour of the gate. The order "store, then validate" is left to the caller. A deploy whose list was never stored is modelled as one whose list is empty, because `presence` treats `nil` and `[]` alike.
- `Samson::Parallelizer.map`: the concurrent fan-out of refreshes is one atomic step, `MonitorApi.ReloadAll`. A refresh that raises is not modelled. The gate assumes every refresh completes.
- `reload_from_api`, the resolution of a query into its monitors, and `state(deploy_groups)`: Datadog API calls. They are inputs: the monitors of each query, and the two alert functions of `MonitorApi`. The stage's deploy groups are folded into those functions.
- `sleep interval` and wall-clock time: the round index `i` stands for `i` minutes elapsed.
- Output text: lines are the `Line` datatype, not formatted strings.
- How a monitor gets its failure behaviour and check duration: the monitor class is not part of this model, so a monitor's settings are its own inputs. `ResolvedFrom` states the expected link to its query, and only StoredMonitorsDeclareBehavior assumes it.
- `failure_behavior?` uses Ruby's `blank?`. The model counts only ASCII whitespace as blank, not other Unicode space characters.
- The round count: the gate as written uses floor division, and `ValidateDeploy` follows the code. Rounded up, the last round would start once the longest check window has elapsed, so a deploy that sees no alert could pass. That version is `CeilIterations`, and `GateLoop` takes the round count as a parameter so both can be used.

## Findings

| source | as written | input that shows it | evidently intended | confidence | as-written member | corrected member |
|---|---|---|---|---|---|---|
| plugins/datadog/lib/samson_datadog/samson_plugin.rb:27 | `iterations = max(check_duration) / 60 + 1` rounds the window down | one monitor with `check_duration` 90 that never alerts: 2 rounds (at 0 s and 60 s), it is still polled after the last one, so the deploy is marked failed | round the window up (`ceil(max / 60) + 1`), so the last round starts once every window has elapsed and a healthy deploy passes | not executed | DeployValidation.NinetySecondWindowFails | DeployValidation.NinetySecondWindowPassesRoundedUp |
