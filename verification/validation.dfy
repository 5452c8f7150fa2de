/** The deploy gate as functions on values: the baseline filter that runs
    before a deploy, one polling round of the gate, and a whole gate run.
    The methods in module SamsonDatadog are proved equal to these. */
module DeployValidation {
  import opened DatadogMonitor

  // ---------------------------------------------------------------------
  // Baseline: store_validation_monitors
  // ---------------------------------------------------------------------

  /** `select(&:failure_behavior?)` */
  function WithFailureBehavior(qs: seq<MonitorQuery>): (r: seq<MonitorQuery>)
    ensures forall q :: q in r <==> q in qs && HasFailureBehavior(q)
    ensures |r| <= |qs|
  {
    if qs == [] then []
    else (if HasFailureBehavior(qs[0]) then [qs[0]] else []) + WithFailureBehavior(qs[1..])
  }

  /** `flat_map(&:monitors)` */
  function FlatMonitors(qs: seq<MonitorQuery>): (r: seq<Monitor>)
    ensures forall m :: m in r <==> exists q :: q in qs && m in q.monitors
  {
    if qs == [] then []
    else
      var r := qs[0].monitors + FlatMonitors(qs[1..]);
      assert forall q :: q in qs ==> q == qs[0] || q in qs[1..];
      r
  }

  /** `reject { |m| m.state(deploy_groups) == "Alert" }` on the snapshot
      states taken before the deploy. */
  function RejectAlerting(ms: seq<Monitor>, alertBeforeDeploy: Monitor -> bool): (r: seq<Monitor>)
    ensures forall m :: m in r <==> m in ms && !alertBeforeDeploy(m)
    ensures |r| <= |ms|
  {
    if ms == [] then []
    else (if alertBeforeDeploy(ms[0]) then [] else [ms[0]]) + RejectAlerting(ms[1..], alertBeforeDeploy)
  }

  /** The list `store_validation_monitors` stores on the deploy. */
  function ValidationMonitors(qs: seq<MonitorQuery>, alertBeforeDeploy: Monitor -> bool): (r: seq<Monitor>)
    ensures forall m :: m in r <==>
      !alertBeforeDeploy(m) && exists q :: q in qs && HasFailureBehavior(q) && m in q.monitors
    ensures |r| <= |FlatMonitors(qs)|
  {
    FlatSelectedShorter(qs);
    RejectAlerting(FlatMonitors(WithFailureBehavior(qs)), alertBeforeDeploy)
  }

  lemma {:induction false} FlatSelectedShorter(qs: seq<MonitorQuery>)
    ensures |FlatMonitors(WithFailureBehavior(qs))| <= |FlatMonitors(qs)|
  {
    if qs != [] {
      FlatSelectedShorter(qs[1..]);
      assert WithFailureBehavior(qs) ==
        (if HasFailureBehavior(qs[0]) then [qs[0]] else []) + WithFailureBehavior(qs[1..]);
      FlatConcat(if HasFailureBehavior(qs[0]) then [qs[0]] else [], WithFailureBehavior(qs[1..]));
    }
  }

  lemma {:induction false} FlatConcat(a: seq<MonitorQuery>, b: seq<MonitorQuery>)
    ensures FlatMonitors(a + b) == FlatMonitors(a) + FlatMonitors(b)
  {
    if a != [] {
      assert (a + b)[1..] == a[1..] + b;
      FlatConcat(a[1..], b);
    } else {
      assert a + b == b;
    }
  }

  lemma {:induction false} SelectConcat(a: seq<MonitorQuery>, b: seq<MonitorQuery>)
    ensures WithFailureBehavior(a + b) == WithFailureBehavior(a) + WithFailureBehavior(b)
  {
    if a != [] {
      assert (a + b)[1..] == a[1..] + b;
      SelectConcat(a[1..], b);
    } else {
      assert a + b == b;
    }
  }

  lemma {:induction false} RejectConcat(a: seq<Monitor>, b: seq<Monitor>, alertBeforeDeploy: Monitor -> bool)
    ensures RejectAlerting(a + b, alertBeforeDeploy) ==
      RejectAlerting(a, alertBeforeDeploy) + RejectAlerting(b, alertBeforeDeploy)
  {
    if a != [] {
      assert (a + b)[1..] == a[1..] + b;
      RejectConcat(a[1..], b, alertBeforeDeploy);
    } else {
      assert a + b == b;
    }
  }

  /** The stored list is the concatenation, in query order, of each selected
      query's monitors that were not alerting before the deploy. */
  lemma {:induction false} ValidationMonitorsInQueryOrder(qs: seq<MonitorQuery>, alertBeforeDeploy: Monitor -> bool)
    ensures qs == [] ==> ValidationMonitors(qs, alertBeforeDeploy) == []
    ensures qs != [] ==>
      (ValidationMonitors(qs, alertBeforeDeploy) ==
         (if HasFailureBehavior(qs[0]) then RejectAlerting(qs[0].monitors, alertBeforeDeploy) else [])
         + ValidationMonitors(qs[1..], alertBeforeDeploy))
  {
    if qs != [] {
      var head := if HasFailureBehavior(qs[0]) then [qs[0]] else [];
      assert qs == [qs[0]] + qs[1..];
      SelectConcat([qs[0]], qs[1..]);
      assert WithFailureBehavior([qs[0]]) == head;
      FlatConcat(head, WithFailureBehavior(qs[1..]));
      assert FlatMonitors(head) == if HasFailureBehavior(qs[0]) then qs[0].monitors else [] by {
        if HasFailureBehavior(qs[0]) {
          assert head[1..] == [];
          assert qs[0].monitors + [] == qs[0].monitors;
        }
      }
      RejectConcat(FlatMonitors(head), FlatMonitors(WithFailureBehavior(qs[1..])), alertBeforeDeploy);
    }
  }

  /** With no query declaring a failure behaviour nothing is gated. */
  lemma {:induction false} NoFailureBehaviorNoGate(qs: seq<MonitorQuery>, alertBeforeDeploy: Monitor -> bool)
    requires forall q :: q in qs ==> !HasFailureBehavior(q)
    ensures ValidationMonitors(qs, alertBeforeDeploy) == []
  {
    if qs != [] {
      ValidationMonitorsInQueryOrder(qs, alertBeforeDeploy);
      NoFailureBehaviorNoGate(qs[1..], alertBeforeDeploy);
    }
  }

  /** When every query's monitors carry its settings, every stored monitor
      has a declared failure behaviour. */
  lemma StoredMonitorsDeclareBehavior(qs: seq<MonitorQuery>, alertBeforeDeploy: Monitor -> bool)
    requires forall q :: q in qs ==> ResolvedFrom(q)
    ensures forall m :: m in ValidationMonitors(qs, alertBeforeDeploy) ==> !IsBlank(m.failureBehavior)
  {
    forall m | m in ValidationMonitors(qs, alertBeforeDeploy)
      ensures !IsBlank(m.failureBehavior)
    {
      var q :| q in qs && HasFailureBehavior(q) && m in q.monitors;
    }
  }

  // ---------------------------------------------------------------------
  // The gate loop: validate_deploy
  // ---------------------------------------------------------------------

  /** `max(check_duration.to_i) / interval + 1`, integer (floor) division. */
  function Iterations(ms: seq<Monitor>): (n: int)
    requires ms != []
    ensures (n - 1) * 60 <= MaxCheckSeconds(ms) < n * 60
  {
    MaxCheckSeconds(ms) / 60 + 1
  }

  /** The round count rounded up, so that the last round starts once the
      longest check window has elapsed and a deploy that sees no alert
      can pass. */
  function CeilIterations(ms: seq<Monitor>): (n: int)
    requires ms != []
    ensures (n - 2) * 60 < MaxCheckSeconds(ms) <= (n - 1) * 60
  {
    (MaxCheckSeconds(ms) + 60 - 1) / 60 + 1
  }

  /** `monitors.select { |m| m.state(deploy_groups) == "Alert" }` after the
      refresh of round `i`. */
  function Alerting(ms: seq<Monitor>, alertInRound: (Monitor, nat) -> bool, i: nat): (r: seq<Monitor>)
    ensures forall m :: m in r <==> m in ms && alertInRound(m, i)
  {
    if ms == [] then []
    else (if alertInRound(ms[0], i) then [ms[0]] else []) + Alerting(ms[1..], alertInRound, i)
  }

  /** No monitor is selected exactly when none of them alerts. */
  lemma {:induction false} AlertingEmpty(ms: seq<Monitor>, alertInRound: (Monitor, nat) -> bool, i: nat)
    ensures Alerting(ms, alertInRound, i) == [] <==> forall m :: m in ms ==> !alertInRound(m, i)
  {
    if ms != [] {
      AlertingEmpty(ms[1..], alertInRound, i);
      assert forall m :: m in ms ==> m == ms[0] || m in ms[1..];
    }
  }

  /** The alerting monitors keep the order of the deploy's list: the
      selection distributes over concatenation. */
  lemma {:induction false} AlertingConcat(a: seq<Monitor>, b: seq<Monitor>, alertInRound: (Monitor, nat) -> bool, i: nat)
    ensures Alerting(a + b, alertInRound, i) == Alerting(a, alertInRound, i) + Alerting(b, alertInRound, i)
  {
    if a != [] {
      var head := if alertInRound(a[0], i) then [a[0]] else [];
      assert (a + b)[0] == a[0];
      assert (a + b)[1..] == a[1..] + b;
      assert Alerting(a + b, alertInRound, i) == head + Alerting(a[1..] + b, alertInRound, i);
      AlertingConcat(a[1..], b, alertInRound, i);
    } else {
      assert a + b == b;
    }
  }

  /** The selection never repeats a monitor: it is no longer than the list. */
  lemma {:induction false} AlertingShorter(ms: seq<Monitor>, alertInRound: (Monitor, nat) -> bool, i: nat)
    ensures |Alerting(ms, alertInRound, i)| <= |ms|
  {
    if ms != [] {
      AlertingShorter(ms[1..], alertInRound, i);
    }
  }

  /** `monitors.reject! { |m| m.check_duration.to_i <= elapsed }`: the
      monitors whose check window has not elapsed yet. */
  function Prune(ms: seq<Monitor>, elapsed: int): (r: seq<Monitor>)
    ensures forall m :: m in r <==> m in ms && CheckSeconds(m) > elapsed
    ensures r == [] <==> forall m :: m in ms ==> CheckSeconds(m) <= elapsed
    ensures |r| <= |ms|
  {
    if ms == [] then []
    else (if CheckSeconds(ms[0]) <= elapsed then [] else [ms[0]]) + Prune(ms[1..], elapsed)
  }

  /** Pruning keeps the relative order: it distributes over concatenation. */
  lemma {:induction false} PruneConcat(a: seq<Monitor>, b: seq<Monitor>, elapsed: int)
    ensures Prune(a + b, elapsed) == Prune(a, elapsed) + Prune(b, elapsed)
  {
    if a != [] {
      var head := if CheckSeconds(a[0]) <= elapsed then [] else [a[0]];
      assert (a + b)[1..] == a[1..] + b;
      assert Prune(a + b, elapsed) == head + Prune(a[1..] + b, elapsed);
      PruneConcat(a[1..], b, elapsed);
    } else {
      assert a + b == b;
    }
  }

  /** Pruning at a later time subsumes pruning at an earlier one. */
  lemma {:induction false} PruneTwice(ms: seq<Monitor>, earlier: int, later: int)
    requires earlier <= later
    ensures Prune(Prune(ms, earlier), later) == Prune(ms, later)
  {
    if ms != [] {
      PruneTwice(ms[1..], earlier, later);
      var head := if CheckSeconds(ms[0]) <= earlier then [] else [ms[0]];
      PruneConcat(head, Prune(ms[1..], earlier), later);
      if head != [] {
        assert head[1..] == [];
      }
    }
  }

  /** Everything is pruned exactly when the elapsed time has reached the
      longest check window. */
  lemma PruneEmpty(ms: seq<Monitor>, elapsed: int)
    requires ms != []
    ensures Prune(ms, elapsed) == [] <==> MaxCheckSeconds(ms) <= elapsed
  {
    var longest := MaxCheckSeconds(ms);
    var big :| big in ms && CheckSeconds(big) == longest;
  }

  /** One line the gate writes to the deploy's output. */
  datatype Line =
    | NoAlerts(remaining: Option<int>)   // "No datadog monitors alerting[ N min remaining]"
    | AlertOn(monitors: seq<Monitor>)    // "Alert on datadog monitors:" and their names and urls
    | RedeployingPrevious                // "Trying to redeploy previous succeeded deploy"

  /** The no-alert line of a round with `remaining` rounds still scheduled. */
  function NoAlertsLine(remaining: int): (l: Line)
    ensures l.NoAlerts?
    ensures l.remaining.Some? <==> remaining > 0
    ensures l.remaining.Some? ==> l.remaining.value == remaining
  {
    NoAlerts(if remaining > 0 then Some(remaining) else None)
  }

  /** Outcome of applying the failure behaviours of the alerting monitors:
      the monitor with an unsupported behaviour, if one stopped it, and the
      flag and output as they are afterwards. */
  datatype Dispatched = Dispatched(unsupported: Option<Monitor>, redeploy: bool, lines: seq<Line>)

  /** `alerting.each { |monitor| case monitor.failure_behavior ... }` */
  function Dispatch(alerting: seq<Monitor>, redeploy: bool, lines: seq<Line>): (d: Dispatched)
    ensures lines <= d.lines
  {
    if alerting == [] then Dispatched(None, redeploy, lines)
    else if alerting[0].failureBehavior == RedeployPrevious then
      Dispatch(alerting[1..], true, lines + [RedeployingPrevious])
    else if alerting[0].failureBehavior == FailDeploy then
      Dispatch(alerting[1..], redeploy, lines)
    else
      Dispatched(Some(alerting[0]), redeploy, lines)
  }

  /** The index of the first monitor whose failure behaviour is not one
      the gate supports, or the length of the list if there is none. */
  function FirstUnsupported(ms: seq<Monitor>): (k: nat)
    ensures k <= |ms|
    ensures forall j :: 0 <= j < k ==> Supported(ms[j].failureBehavior)
    ensures k < |ms| ==> !Supported(ms[k].failureBehavior)
  {
    if ms == [] then 0
    else if Supported(ms[0].failureBehavior) then 1 + FirstUnsupported(ms[1..])
    else 0
  }

  /** Applying the failure behaviours raises for the first unsupported one;
      before it every `redeploy_previous` sets the flag, and nothing clears it. */
  lemma {:induction false} DispatchSpec(alerting: seq<Monitor>, redeploy: bool, lines: seq<Line>)
    ensures var d := Dispatch(alerting, redeploy, lines);
      var k := FirstUnsupported(alerting);
      d.unsupported == (if k < |alerting| then Some(alerting[k]) else None)
      && (d.redeploy <==>
            redeploy || exists j :: 0 <= j < k && alerting[j].failureBehavior == RedeployPrevious)
  {
    if alerting != [] && Supported(alerting[0].failureBehavior) {
      var rest := alerting[1..];
      var flag := redeploy || alerting[0].failureBehavior == RedeployPrevious;
      var out := if alerting[0].failureBehavior == RedeployPrevious then lines + [RedeployingPrevious] else lines;
      DispatchSpec(rest, flag, out);
      assert Dispatch(alerting, redeploy, lines) == Dispatch(rest, flag, out);
      var k := FirstUnsupported(rest);
      assert forall j :: 0 <= j < k ==> rest[j] == alerting[j + 1];
      if exists j :: 0 <= j < k && rest[j].failureBehavior == RedeployPrevious {
        var j :| 0 <= j < k && rest[j].failureBehavior == RedeployPrevious;
        assert alerting[j + 1].failureBehavior == RedeployPrevious;
      }
      if exists j :: 0 <= j < k + 1 && alerting[j].failureBehavior == RedeployPrevious {
        var j :| 0 <= j < k + 1 && alerting[j].failureBehavior == RedeployPrevious;
        if j > 0 {
          assert rest[j - 1].failureBehavior == RedeployPrevious;
        }
      }
    }
  }

  /** The verdict of `validate_deploy`: `true`, `false`, or the
      ArgumentError raised for an unsupported failure behaviour. */
  datatype Verdict = Passed | Failed | Unsupported(monitor: Monitor)

  /** What the gate changes: the deploy's validation list, its redeploy
      flag, the refresh batches sent to the API and the output lines. */
  datatype GateState = GateState(
    monitors: seq<Monitor>,
    redeploy: bool,
    reloads: seq<seq<Monitor>>,
    lines: seq<Line>)

  datatype Step = Next(state: GateState) | Done(verdict: Verdict, state: GateState)

  datatype GateEnd = GateEnd(verdict: Verdict, state: GateState)

  /** Round `i` of `n`: refresh, then prune and maybe pass, or apply the
      failure behaviours of the alerting monitors and stop. */
  function Round(s: GateState, alertInRound: (Monitor, nat) -> bool, i: nat, n: int): (r: Step)
    ensures r.state.reloads == s.reloads + [s.monitors]
    ensures s.lines < r.state.lines
    ensures r.Next? ==> r.state.monitors != [] && r.state.redeploy == s.redeploy
    ensures forall m :: m in r.state.monitors ==> m in s.monitors
    ensures r.Done? && r.verdict == Passed ==> r.state.monitors == []
  {
    var refreshed := s.(reloads := s.reloads + [s.monitors]);
    var alerting := Alerting(s.monitors, alertInRound, i);
    if alerting == [] then
      var kept := Prune(s.monitors, i * 60);
      var after := refreshed.(monitors := kept, lines := s.lines + [NoAlertsLine(n - i - 1)]);
      if kept == [] then Done(Passed, after) else Next(after)
    else
      var d := Dispatch(alerting, s.redeploy, s.lines + [AlertOn(alerting)]);
      var after := refreshed.(redeploy := d.redeploy, lines := d.lines);
      Done(if d.unsupported.Some? then Unsupported(d.unsupported.value) else Failed, after)
  }

  /** The gate from round `i` on, with `n` rounds in all; falling out of the
      rounds gives `false`. */
  function Run(s: GateState, alertInRound: (Monitor, nat) -> bool, i: nat, n: int): (e: GateEnd)
    ensures e.verdict == Passed ==> e.state.monitors == []
    ensures s.lines <= e.state.lines
    decreases n - i
  {
    if n <= i then GateEnd(Failed, s)
    else
      match Round(s, alertInRound, i, n)
      case Done(v, t) => GateEnd(v, t)
      case Next(t) => Run(t, alertInRound, i + 1, n)
  }

  /** A round without alerts: every monitor is refreshed, exactly those whose
      window has elapsed are dropped, and the line shows the remaining round
      count only when it is positive. */
  lemma QuietRound(s: GateState, alertInRound: (Monitor, nat) -> bool, i: nat, n: int)
    requires forall m :: m in s.monitors ==> !alertInRound(m, i)
    ensures var t := Round(s, alertInRound, i, n).state;
      t.reloads == s.reloads + [s.monitors]
      && (forall m :: m in t.monitors <==> m in s.monitors && CheckSeconds(m) > i * 60)
      && t.monitors == Prune(s.monitors, i * 60)
      && t.redeploy == s.redeploy
      && t.lines == s.lines + [NoAlerts(if n - i - 1 > 0 then Some(n - i - 1) else None)]
      && (Round(s, alertInRound, i, n).Done? <==> t.monitors == [])
  {
    AlertingEmpty(s.monitors, alertInRound, i);
  }

  /** A round that sees an alert ends the gate with a failure: no later round
      runs and the validation list is left as it was. */
  lemma AlertEndsGate(s: GateState, alertInRound: (Monitor, nat) -> bool, i: nat, n: int)
    requires i < n
    requires exists m :: m in s.monitors && alertInRound(m, i)
    ensures var e := Run(s, alertInRound, i, n);
      e.verdict != Passed
      && e.state.reloads == s.reloads + [s.monitors]
      && e.state.monitors == s.monitors
      && (e.verdict == Failed <==>
            forall m :: m in Alerting(s.monitors, alertInRound, i) ==> Supported(m.failureBehavior))
    ensures var e := Run(s, alertInRound, i, n);
      var alerting := Alerting(s.monitors, alertInRound, i);
      var k := FirstUnsupported(alerting);
      s.lines + [AlertOn(alerting)] <= e.state.lines
      && (e.verdict.Unsupported? ==> k < |alerting| && e.verdict.monitor == alerting[k])
      && (e.state.redeploy <==>
            s.redeploy || exists j :: 0 <= j < k && alerting[j].failureBehavior == RedeployPrevious)
  {
    var m :| m in s.monitors && alertInRound(m, i);
    assert m in Alerting(s.monitors, alertInRound, i);
    DispatchSpec(Alerting(s.monitors, alertInRound, i), s.redeploy,
      s.lines + [AlertOn(Alerting(s.monitors, alertInRound, i))]);
  }

  /** The gate refreshes at most once per scheduled round, always a part of
      the list it was given, and only ever appends to the refresh log. */
  lemma {:induction false} RunBoundedRounds(s: GateState, alertInRound: (Monitor, nat) -> bool, i: nat, n: int)
    ensures var e := Run(s, alertInRound, i, n);
      s.reloads <= e.state.reloads
      && |e.state.reloads| <= |s.reloads| + (if i < n then n - i else 0)
      && forall k, m :: |s.reloads| <= k < |e.state.reloads| && m in e.state.reloads[k] ==> m in s.monitors
    decreases n - i
  {
    if i < n {
      var r := Round(s, alertInRound, i, n);
      if r.Next? {
        assert Run(s, alertInRound, i, n) == Run(r.state, alertInRound, i + 1, n);
        RunBoundedRounds(r.state, alertInRound, i + 1, n);
      }
    }
  }

  /** The validation list never grows and only loses members, the redeploy
      flag is never cleared, and output is only appended. */
  lemma {:induction false} RunNeverGrows(s: GateState, alertInRound: (Monitor, nat) -> bool, i: nat, n: int)
    ensures var e := Run(s, alertInRound, i, n);
      |e.state.monitors| <= |s.monitors|
      && (forall m :: m in e.state.monitors ==> m in s.monitors)
      && (s.redeploy ==> e.state.redeploy)
      && s.lines <= e.state.lines
    decreases n - i
  {
    if i < n {
      var r := Round(s, alertInRound, i, n);
      if Alerting(s.monitors, alertInRound, i) != [] {
        DispatchSpec(Alerting(s.monitors, alertInRound, i), s.redeploy,
          s.lines + [AlertOn(Alerting(s.monitors, alertInRound, i))]);
      }
      if r.Next? {
        RunNeverGrows(r.state, alertInRound, i + 1, n);
      }
    }
  }

  /** `true` comes only from a round that pruned the list to nothing, and a
      gate that started with monitors fails exactly when some remain. */
  lemma {:induction false} RunPassesIffEmptied(s: GateState, alertInRound: (Monitor, nat) -> bool, i: nat, n: int)
    requires s.monitors != []
    ensures var e := Run(s, alertInRound, i, n);
      e.verdict == Passed <==> e.state.monitors == []
    decreases n - i
  {
    if i < n {
      var r := Round(s, alertInRound, i, n);
      if r.Next? {
        RunPassesIffEmptied(r.state, alertInRound, i + 1, n);
      }
    }
  }

  /** An unsupported failure behaviour is raised only for a monitor of the
      validation list that carries it; so a list whose behaviours are all
      supported never raises. */
  lemma {:induction false} UnsupportedCulprit(s: GateState, alertInRound: (Monitor, nat) -> bool, i: nat, n: int)
    ensures var e := Run(s, alertInRound, i, n);
      e.verdict.Unsupported? ==>
        e.verdict.monitor in s.monitors && !Supported(e.verdict.monitor.failureBehavior)
    ensures (forall m :: m in s.monitors ==> Supported(m.failureBehavior)) ==>
      !Run(s, alertInRound, i, n).verdict.Unsupported?
    decreases n - i
  {
    if i < n {
      var r := Round(s, alertInRound, i, n);
      var alerting := Alerting(s.monitors, alertInRound, i);
      if alerting != [] {
        DispatchSpec(alerting, s.redeploy, s.lines + [AlertOn(alerting)]);
        var d := Dispatch(alerting, s.redeploy, s.lines + [AlertOn(alerting)]);
        if d.unsupported.Some? {
          var k :| 0 <= k < |alerting| && alerting[k] == d.unsupported.value
            && !Supported(alerting[k].failureBehavior);
          assert alerting[k] in alerting;
        }
      } else if r.Next? {
        UnsupportedCulprit(r.state, alertInRound, i + 1, n);
      }
    }
  }

  // ---------------------------------------------------------------------
  // Gates that never see an alert
  // ---------------------------------------------------------------------

  /** No monitor of `ms` alerts in any of the `n` rounds. */
  ghost predicate Quiet(ms: seq<Monitor>, alertInRound: (Monitor, nat) -> bool, n: int) {
    forall m, j: nat :: m in ms && j < n ==> !alertInRound(m, j)
  }

  /** The monitors still polled when round `i` starts, if no round alerted:
      all of them at first, then those whose window exceeds the time
      elapsed at the previous round. */
  ghost predicate PolledAt(ms: seq<Monitor>, polled: seq<Monitor>, i: nat) {
    forall m :: m in polled <==> m in ms && (i == 0 || CheckSeconds(m) > (i - 1) * 60)
  }

  /** The state after a round in which nothing alerted. */
  function QuietNext(s: GateState, i: nat, n: int): GateState {
    s.(monitors := Prune(s.monitors, i * 60),
       reloads := s.reloads + [s.monitors],
       lines := s.lines + [NoAlertsLine(n - i - 1)])
  }

  /** A round without alerts passes if pruning empties the list and hands
      the pruned state to the next round otherwise. */
  lemma QuietRunStep(s: GateState, alertInRound: (Monitor, nat) -> bool, i: nat, n: int)
    requires i < n && Alerting(s.monitors, alertInRound, i) == []
    ensures Run(s, alertInRound, i, n).verdict ==
      if Prune(s.monitors, i * 60) == [] then Passed
      else Run(QuietNext(s, i, n), alertInRound, i + 1, n).verdict
  {
  }

  /** Without alerts, the pruned list is empty exactly when the longest
      window has elapsed, and otherwise holds the monitors polled next. */
  lemma PolledNext(ms: seq<Monitor>, polled: seq<Monitor>, i: nat)
    requires ms != [] && PolledAt(ms, polled, i)
    ensures Prune(polled, i * 60) == [] <==> MaxCheckSeconds(ms) <= i * 60
    ensures PolledAt(ms, Prune(polled, i * 60), i + 1)
  {
    var longest := MaxCheckSeconds(ms);
    var big :| big in ms && CheckSeconds(big) == longest;
    if longest > i * 60 {
      assert big in Prune(polled, i * 60);
    }
  }

  /** The verdict of a quiet gate from round `i`: `true` at the first round
      that starts at or after the end of the longest window, `false` if the
      rounds run out before. */
  function QuietVerdict(longest: int, i: nat, n: int): Verdict
    decreases n - i
  {
    if n <= i then Failed
    else if longest <= i * 60 then Passed
    else QuietVerdict(longest, i + 1, n)
  }

  /** A gate that sees no alert ends with the quiet verdict. */
  lemma {:induction false} QuietRunVerdict(ms: seq<Monitor>, alertInRound: (Monitor, nat) -> bool, s: GateState, i: nat, n: int)
    requires ms != [] && Quiet(ms, alertInRound, n)
    requires PolledAt(ms, s.monitors, i)
    ensures Run(s, alertInRound, i, n).verdict == QuietVerdict(MaxCheckSeconds(ms), i, n)
    decreases n - i
  {
    if i < n {
      AlertingEmpty(s.monitors, alertInRound, i);
      QuietRunStep(s, alertInRound, i, n);
      PolledNext(ms, s.monitors, i);
      if MaxCheckSeconds(ms) > i * 60 {
        QuietRunVerdict(ms, alertInRound, QuietNext(s, i, n), i + 1, n);
      }
    }
  }

  /** The quiet verdict is `true` exactly when a round is left and the last
      scheduled round starts at or after the end of the longest window, and
      `false` otherwise. */
  lemma {:induction false} QuietVerdictPasses(longest: int, i: nat, n: int)
    ensures QuietVerdict(longest, i, n) == Passed <==> i < n && longest <= (n - 1) * 60
    ensures QuietVerdict(longest, i, n) in {Passed, Failed}
    decreases n - i
  {
    if i < n {
      if longest > i * 60 {
        QuietVerdictPasses(longest, i + 1, n);
      }
    }
  }

  /** A quiet gate from round `i` passes exactly when a round is left and the
      last scheduled round starts at or after the end of the longest check
      window; otherwise it runs out of rounds and fails. It never raises. */
  lemma QuietRun(ms: seq<Monitor>, alertInRound: (Monitor, nat) -> bool, s: GateState, i: nat, n: int)
    requires ms != [] && Quiet(ms, alertInRound, n)
    requires PolledAt(ms, s.monitors, i)
    ensures Run(s, alertInRound, i, n).verdict == Passed <==>
      i < n && MaxCheckSeconds(ms) <= (n - 1) * 60
    ensures Run(s, alertInRound, i, n).verdict in {Passed, Failed}
  {
    QuietRunVerdict(ms, alertInRound, s, i, n);
    QuietVerdictPasses(MaxCheckSeconds(ms), i, n);
  }

  /** As written, with floor division: a gate that never sees an alert
      passes only when the longest check window is a non-negative whole
      number of minutes, and otherwise runs out of rounds and fails. */
  lemma QuietGateVerdict(s: GateState, alertInRound: (Monitor, nat) -> bool)
    requires s.monitors != [] && Quiet(s.monitors, alertInRound, Iterations(s.monitors))
    ensures Run(s, alertInRound, 0, Iterations(s.monitors)).verdict == Passed <==>
      MaxCheckSeconds(s.monitors) >= 0 && MaxCheckSeconds(s.monitors) % 60 == 0
    ensures Run(s, alertInRound, 0, Iterations(s.monitors)).verdict in {Passed, Failed}
  {
    assert PolledAt(s.monitors, s.monitors, 0);
    QuietRun(s.monitors, alertInRound, s, 0, Iterations(s.monitors));
  }

  /** The discrepancy: one monitor with a 90 second window that never alerts
      makes the gate fail. */
  lemma NinetySecondWindowFails(s: GateState, alertInRound: (Monitor, nat) -> bool)
    requires |s.monitors| == 1 && CheckSeconds(s.monitors[0]) == 90
    requires forall m, j: nat :: !alertInRound(m, j)
    ensures Iterations(s.monitors) == 2
    ensures Run(s, alertInRound, 0, Iterations(s.monitors)).verdict == Failed
  {
    assert MaxCheckSeconds(s.monitors) == 90;
    QuietGateVerdict(s, alertInRound);
  }

  /** Corrected, with the round count rounded up: a gate that never sees an
      alert passes whenever the longest window is above minus one minute,
      in particular for every non-negative window. */
  lemma CeilingQuietGateVerdict(s: GateState, alertInRound: (Monitor, nat) -> bool)
    requires s.monitors != [] && Quiet(s.monitors, alertInRound, CeilIterations(s.monitors))
    ensures Run(s, alertInRound, 0, CeilIterations(s.monitors)).verdict == Passed <==>
      MaxCheckSeconds(s.monitors) > -60
  {
    assert PolledAt(s.monitors, s.monitors, 0);
    QuietRun(s.monitors, alertInRound, s, 0, CeilIterations(s.monitors));
  }

  /** Corrected: the same 90 second monitor gets three rounds and passes in
      the third, once two minutes have elapsed. */
  lemma NinetySecondWindowPassesRoundedUp(s: GateState, alertInRound: (Monitor, nat) -> bool)
    requires |s.monitors| == 1 && CheckSeconds(s.monitors[0]) == 90
    requires forall m, j: nat :: !alertInRound(m, j)
    ensures CeilIterations(s.monitors) == 3
    ensures Run(s, alertInRound, 0, CeilIterations(s.monitors)).verdict == Passed
  {
    assert MaxCheckSeconds(s.monitors) == 90;
    CeilingQuietGateVerdict(s, alertInRound);
  }
}
