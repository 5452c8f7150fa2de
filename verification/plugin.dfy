/** The plugin's two hooks on a deploy, as methods that update the deploy,
    the monitor API and the job output in place. Each is proved to end in
    the state and verdict that module DeployValidation computes. */
module SamsonDatadog {
  import opened DatadogMonitor
  import opened DeployValidation

  /** The part of a deploy the gate reads and writes. */
  class Deploy {
    var succeeded: bool
    const queries: seq<MonitorQuery>
    var monitorsForValidation: seq<Monitor>
    var redeployPreviousWhenFailed: bool

    /** A deploy of a stage with the given monitor queries, before the
        baseline is stored (a list never stored reads as empty). */
    constructor (succeeded: bool, queries: seq<MonitorQuery>)
      ensures this.succeeded == succeeded && this.queries == queries
      ensures monitorsForValidation == [] && !redeployPreviousWhenFailed
    {
      this.succeeded := succeeded;
      this.queries := queries;
      monitorsForValidation := [];
      redeployPreviousWhenFailed := false;
    }
  }

  /** The Datadog monitor API. The state a monitor reports is an input:
      `alertBeforeDeploy` when the baseline is taken, `alertInRound` after
      the refresh of each gate round. `reloads` logs every refresh batch. */
  class MonitorApi {
    const alertBeforeDeploy: Monitor -> bool
    const alertInRound: (Monitor, nat) -> bool
    var reloads: seq<seq<Monitor>>

    constructor (alertBeforeDeploy: Monitor -> bool, alertInRound: (Monitor, nat) -> bool)
      ensures this.alertBeforeDeploy == alertBeforeDeploy && this.alertInRound == alertInRound
      ensures reloads == []
    {
      this.alertBeforeDeploy := alertBeforeDeploy;
      this.alertInRound := alertInRound;
      reloads := [];
    }

    /** `Samson::Parallelizer.map(monitors, &:reload_from_api)`: one refresh
        of every monitor of the batch. */
    method ReloadAll(ms: seq<Monitor>)
      modifies this`reloads
      ensures reloads == old(reloads) + [ms]
    {
      reloads := reloads + [ms];
    }
  }

  /** The job's output stream, as the lines written to it. */
  class JobOutput {
    var lines: seq<Line>

    constructor ()
      ensures lines == []
    {
      lines := [];
    }

    /** `output.puts` */
    method Puts(line: Line)
      modifies this`lines
      ensures lines == old(lines) + [line]
    {
      lines := lines + [line];
    }
  }

  /** The state the gate changes, read off the three objects. */
  ghost function Snapshot(deploy: Deploy, api: MonitorApi, output: JobOutput): GateState
    reads deploy, api, output
  {
    GateState(deploy.monitorsForValidation, deploy.redeployPreviousWhenFailed, api.reloads, output.lines)
  }

  /** `store_validation_monitors`: the baseline taken before the deploy. */
  method StoreValidationMonitors(deploy: Deploy, api: MonitorApi)
    modifies deploy`monitorsForValidation
    ensures deploy.monitorsForValidation == ValidationMonitors(deploy.queries, api.alertBeforeDeploy)
    ensures forall m :: m in deploy.monitorsForValidation <==>
      !api.alertBeforeDeploy(m) && exists q :: q in deploy.queries && HasFailureBehavior(q) && m in q.monitors
  {
    deploy.monitorsForValidation := ValidationMonitors(deploy.queries, api.alertBeforeDeploy);
  }

  /** `validate_deploy`: nothing to check for a failed deploy or an empty
      list; otherwise the gate runs for `Iterations` rounds. The verdict
      `Unsupported` stands for the ArgumentError the source raises. */
  method ValidateDeploy(deploy: Deploy, api: MonitorApi, output: JobOutput) returns (verdict: Verdict)
    modifies deploy`monitorsForValidation, deploy`redeployPreviousWhenFailed, api`reloads, output`lines
    ensures !old(deploy.succeeded) || old(deploy.monitorsForValidation) == [] ==>
      verdict == Passed && Snapshot(deploy, api, output) == old(Snapshot(deploy, api, output))
    ensures old(deploy.succeeded) && old(deploy.monitorsForValidation) != [] ==>
      var e := Run(old(Snapshot(deploy, api, output)), api.alertInRound, 0,
                   Iterations(old(deploy.monitorsForValidation)));
      verdict == e.verdict && Snapshot(deploy, api, output) == e.state
    ensures verdict.Unsupported? ==>
      verdict.monitor in old(deploy.monitorsForValidation) && !Supported(verdict.monitor.failureBehavior)
    ensures forall m :: m in deploy.monitorsForValidation ==> m in old(deploy.monitorsForValidation)
    ensures old(deploy.redeployPreviousWhenFailed) ==> deploy.redeployPreviousWhenFailed
  {
    if !deploy.succeeded {
      return Passed;
    }
    if deploy.monitorsForValidation == [] {
      return Passed;
    }
    ghost var start := Snapshot(deploy, api, output);
    var iterations := Iterations(deploy.monitorsForValidation);
    verdict := GateLoop(deploy, api, output, iterations);
    UnsupportedCulprit(start, api.alertInRound, 0, iterations);
    RunNeverGrows(start, api.alertInRound, 0, iterations);
  }

  /** The rounds of `validate_deploy`, for a given round count. Every round
      refreshes the list and either prunes it (passing once it is empty)
      or applies the failure behaviours of the alerting monitors and stops. */
  method GateLoop(deploy: Deploy, api: MonitorApi, output: JobOutput, iterations: int) returns (verdict: Verdict)
    modifies deploy`monitorsForValidation, deploy`redeployPreviousWhenFailed, api`reloads, output`lines
    ensures var e := Run(old(Snapshot(deploy, api, output)), api.alertInRound, 0, iterations);
      verdict == e.verdict && Snapshot(deploy, api, output) == e.state
  {
    var i: nat := 0;
    while i < iterations
      invariant Run(Snapshot(deploy, api, output), api.alertInRound, i, iterations)
        == Run(old(Snapshot(deploy, api, output)), api.alertInRound, 0, iterations)
      decreases iterations - i
    {
      ghost var before := Snapshot(deploy, api, output);
      var monitors := deploy.monitorsForValidation;
      api.ReloadAll(monitors);
      var alerting := Alerting(monitors, api.alertInRound, i);
      if alerting == [] {
        output.Puts(NoAlertsLine(iterations - i - 1));
        deploy.monitorsForValidation := Prune(monitors, i * 60);
        assert Round(before, api.alertInRound, i, iterations).state == Snapshot(deploy, api, output);
        if deploy.monitorsForValidation == [] {
          return Passed;
        }
        i := i + 1;
      } else {
        output.Puts(AlertOn(alerting));
        var unsupported := ApplyFailureBehaviors(deploy, output, alerting);
        assert Round(before, api.alertInRound, i, iterations).state == Snapshot(deploy, api, output);
        if unsupported.Some? {
          return Unsupported(unsupported.value);
        }
        break;
      }
    }
    verdict := Failed;
  }

  /** `alerting.each { |monitor| case monitor.failure_behavior ... }`:
      `redeploy_previous` sets the deploy's flag and says so, `fail_deploy`
      does nothing, and any other value stops at that monitor. */
  method ApplyFailureBehaviors(deploy: Deploy, output: JobOutput, alerting: seq<Monitor>)
    returns (unsupported: Option<Monitor>)
    modifies deploy`redeployPreviousWhenFailed, output`lines
    ensures var d := Dispatch(alerting, old(deploy.redeployPreviousWhenFailed), old(output.lines));
      unsupported == d.unsupported && deploy.redeployPreviousWhenFailed == d.redeploy && output.lines == d.lines
  {
    var k := 0;
    while k < |alerting|
      invariant k <= |alerting|
      invariant Dispatch(alerting[k..], deploy.redeployPreviousWhenFailed, output.lines)
        == Dispatch(alerting, old(deploy.redeployPreviousWhenFailed), old(output.lines))
    {
      var monitor := alerting[k];
      assert alerting[k..][1..] == alerting[k + 1..];
      if monitor.failureBehavior == RedeployPrevious {
        deploy.redeployPreviousWhenFailed := true;
        output.Puts(RedeployingPrevious);
      } else if monitor.failureBehavior == FailDeploy {
      } else {
        return Some(monitor);
      }
      k := k + 1;
    }
    return None;
  }
}
