/** Monitors and monitor queries as the deploy gate sees them: already
    resolved from the Datadog API, with the attributes the gate reads. */
module DatadogMonitor {

  datatype Option<+T> = None | Some(value: T)

  /** One Datadog monitor, as the monitor class hands it to the gate (that
      class is not part of this model). `failureBehavior` and
      `checkDuration` are what the monitor reports for those settings;
      `ResolvedFrom` says when they are its query's. `name` and `url` are
      only shown to the operator. A missing check duration is `None`. */
  datatype Monitor = Monitor(
    id: nat,
    name: string,
    url: string,
    failureBehavior: string,
    checkDuration: Option<int>)

  /** A stage's monitor query with the monitors it resolves to. `query` is
      the Datadog query text, opaque here. A query with no failure
      behaviour stores it as the empty string. */
  datatype MonitorQuery = MonitorQuery(
    query: string,
    failureBehavior: string,
    checkDuration: Option<int>,
    monitors: seq<Monitor>)

  /** The two failure behaviours the gate knows how to apply. */
  const RedeployPrevious: string := "redeploy_previous"
  const FailDeploy: string := "fail_deploy"

  /** Both supported behaviours are non-blank, so a query declaring either
      one counts as having a failure behaviour. */
  predicate Supported(behavior: string): (b: bool)
    ensures b ==> !IsBlank(behavior)
  {
    var b := behavior == RedeployPrevious || behavior == FailDeploy;
    assert b ==> |behavior| > 0 && !IsSpace(behavior[0]);
    b
  }

  /** ASCII whitespace, as Ruby's `blank?` sees it for these values. */
  predicate IsSpace(c: char) {
    c == ' ' || c == '\t' || c == '\n' || c == '\r' || c as int == 11 || c as int == 12
  }

  predicate IsBlank(s: string) {
    forall k :: 0 <= k < |s| ==> IsSpace(s[k])
  }

  /** `failure_behavior?`: the query declares a (non-blank) failure behaviour. */
  predicate HasFailureBehavior(q: MonitorQuery): (b: bool)
    ensures q.failureBehavior == "" ==> !b
    ensures Supported(q.failureBehavior) ==> b
  {
    !IsBlank(q.failureBehavior)
  }

  /** The query's monitors carry the query's own failure behaviour and
      check duration. */
  ghost predicate ResolvedFrom(q: MonitorQuery) {
    forall m :: m in q.monitors ==>
      m.failureBehavior == q.failureBehavior && m.checkDuration == q.checkDuration
  }

  /** `check_duration.to_i`: the check window in seconds, nil read as 0. */
  function CheckSeconds(m: Monitor): (r: int)
    ensures m.checkDuration == None ==> r == 0
    ensures m.checkDuration.Some? ==> r == m.checkDuration.value
  {
    match m.checkDuration
    case None => 0
    case Some(d) => d
  }

  /** `monitors.map { |m| m.check_duration.to_i }.max` of a non-empty list. */
  function MaxCheckSeconds(ms: seq<Monitor>): (r: int)
    requires ms != []
    ensures forall m :: m in ms ==> CheckSeconds(m) <= r
    ensures exists m :: m in ms && CheckSeconds(m) == r
  {
    if |ms| == 1 then CheckSeconds(ms[0])
    else
      var rest := MaxCheckSeconds(ms[1..]);
      assert forall m :: m in ms ==> m == ms[0] || m in ms[1..];
      if CheckSeconds(ms[0]) >= rest then CheckSeconds(ms[0]) else rest
  }
}
