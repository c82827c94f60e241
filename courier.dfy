/** The compensation side of a routing slip: choosing the entry to undo and
    building the result of the embedder's compensation logic. */
module Courier {
  import opened Wrappers
  import opened Exceptions

  /** A Guid, modelled by its canonical text form (distinct Guids have distinct texts). */
  type Guid = string

  /** A variable or log value, modelled by its serialized form. */
  type Value = string

  datatype HostInfo = HostInfo(machineName: string, processName: string)

  /** One entry per activity that was started: its name and the id of that execution. */
  datatype ActivityLog = ActivityLog(executionId: Guid, name: string)

  /** One entry per completed compensable activity: where to undo it and with what data. */
  datatype CompensateLog = CompensateLog(executionId: Guid, address: string, data: map<string, Value>)

  /** The routing slip as seen by a compensation host, after sanitizing the message. */
  datatype RoutingSlip = RoutingSlip(
    trackingNumber: Guid,
    activityLogs: seq<ActivityLog>,
    compensateLogs: seq<CompensateLog>,
    variables: map<string, Value>)

  const NoCompensateLogsMessage := "The routingSlip must contain at least one activity log"
  const MissingActivityLogMessage := "The compensation log did not have a matching activity log entry: "
  const MoreThanOneMatchMessage := "Sequence contains more than one matching element"
  const CompensationFailedMessage := "The routing slip compensation failed"

  /** The activity logs whose execution id is `id`, in order: the reference against
      which the single-element search is specified. */
  function Matching(logs: seq<ActivityLog>, id: Guid): (r: seq<ActivityLog>)
    ensures forall a :: a in r ==> a in logs && a.executionId == id
    ensures forall a :: a in logs && a.executionId == id ==> a in r
  {
    if logs == [] then []
    else (if logs[0].executionId == id then [logs[0]] else []) + Matching(logs[1..], id)
  }

  /** What `SingleOrDefault` can end in: the default (null), the one match, or the
      exception it throws on a second match. */
  datatype Single<T> = NoMatch | Found(value: T) | MoreThanOne

  /** `Enumerable.SingleOrDefault` with the predicate "execution id equals `id`". */
  function SingleOrDefault(logs: seq<ActivityLog>, id: Guid): (r: Single<ActivityLog>)
    ensures r == NoMatch <==> Matching(logs, id) == []
    ensures r == MoreThanOne <==> |Matching(logs, id)| >= 2
    ensures r.Found? <==> |Matching(logs, id)| == 1
    ensures r.Found? ==> Matching(logs, id) == [r.value]
  {
    if logs == [] then NoMatch
    else
      var rest := SingleOrDefault(logs[1..], id);
      if logs[0].executionId != id then rest
      else if rest == NoMatch then Found(logs[0])
      else MoreThanOne
  }

  /** The compensate log undone by this hop: the one pushed most recently. */
  function SelectCompensateLog(logs: seq<CompensateLog>): CompensateLog
    requires |logs| > 0
  {
    logs[|logs| - 1]
  }

  /** The state a compensation host holds for one compensating routing slip. */
  datatype HostCompensation<TLog> = HostCompensation(
    host: HostInfo,
    routingSlip: RoutingSlip,
    compensateLog: CompensateLog,
    activityLog: ActivityLog,
    data: TLog)
  {
    function Log(): TLog { data }
    function TrackingNumber(): Guid { routingSlip.trackingNumber }
    function ActivityName(): string { activityLog.name }
    function ActivityTrackingNumber(): Guid { activityLog.executionId }

    function Compensated(): CompensationResult<TLog>
    {
      CompensatedResult(this, compensateLog, routingSlip)
    }

    /** `values` is an object whose properties become variables; `asDictionary` is the
        (unmodelled) reflection that reads them. */
    function CompensatedWithValues<V>(values: Option<V>, asDictionary: V -> map<string, Value>)
      : Result<CompensationResult<TLog>, Exception>
    {
      if values.None? then Failure(ArgumentNullException("values"))
      else Success(CompensatedWithVariablesResult(this, compensateLog, routingSlip, asDictionary(values.value)))
    }

    function CompensatedWithVariables(variables: Option<map<string, Value>>)
      : Result<CompensationResult<TLog>, Exception>
    {
      if variables.None? then Failure(ArgumentNullException("variables"))
      else Success(CompensatedWithVariablesResult(this, compensateLog, routingSlip, variables.value))
    }

    function Failed(): CompensationResult<TLog>
    {
      FailedResult(this, compensateLog, routingSlip, RoutingSlipException(CompensationFailedMessage))
    }

    function FailedWith(exception: Exception): CompensationResult<TLog>
    {
      FailedResult(this, compensateLog, routingSlip, exception)
    }
  }

  /** The terminal actions of a compensation step. */
  datatype CompensationResult<TLog> =
    | CompensatedResult(compensation: HostCompensation<TLog>, compensateLog: CompensateLog, routingSlip: RoutingSlip)
    | CompensatedWithVariablesResult(compensation: HostCompensation<TLog>, compensateLog: CompensateLog,
                                     routingSlip: RoutingSlip, variables: map<string, Value>)
    | FailedResult(compensation: HostCompensation<TLog>, compensateLog: CompensateLog,
                   routingSlip: RoutingSlip, exception: Exception)

  /** The constructor of a compensation host: rejects a slip with nothing to compensate,
      selects the most recent compensate log and finds its single activity log.
      `readLog` stands for the deserialization of the selected entry's data. */
  function Create<TLog>(host: HostInfo, slip: RoutingSlip, readLog: RoutingSlip -> TLog)
    : (r: Result<HostCompensation<TLog>, Exception>)
    ensures |slip.compensateLogs| == 0 ==> r == Failure(ArgumentException(NoCompensateLogsMessage))
    ensures |slip.compensateLogs| > 0 ==>
      var entry := slip.compensateLogs[|slip.compensateLogs| - 1];
      var matches := Matching(slip.activityLogs, entry.executionId);
      && (matches == [] ==> r == Failure(RoutingSlipException(MissingActivityLogMessage + entry.executionId)))
      && (|matches| >= 2 ==> r == Failure(InvalidOperationException(MoreThanOneMatchMessage)))
      && (r.Success? <==> |matches| == 1)
      && (r.Success? ==>
            && r.value.compensateLog == entry
            && matches == [r.value.activityLog]
            && r.value.routingSlip == slip
            && r.value.host == host
            && r.value.data == readLog(slip))
  {
    if |slip.compensateLogs| == 0 then
      Failure(ArgumentException(NoCompensateLogsMessage))
    else
      var entry := SelectCompensateLog(slip.compensateLogs);
      match SingleOrDefault(slip.activityLogs, entry.executionId)
      case NoMatch => Failure(RoutingSlipException(MissingActivityLogMessage + entry.executionId))
      case MoreThanOne => Failure(InvalidOperationException(MoreThanOneMatchMessage))
      case Found(activityLog) => Success(HostCompensation(host, slip, entry, activityLog, readLog(slip)))
  }

  /** The accessors of a constructed host: the tracking number is the slip's own, the
      activity tracking number is the selected entry's execution id, and the activity
      name is the name logged for that execution, by every log with that id. */
  lemma CreatedAccessors<TLog>(host: HostInfo, slip: RoutingSlip, readLog: RoutingSlip -> TLog)
    requires Create(host, slip, readLog).Success?
    ensures var c := Create(host, slip, readLog).value;
      && |slip.compensateLogs| > 0
      && c.TrackingNumber() == slip.trackingNumber
      && c.ActivityTrackingNumber() == slip.compensateLogs[|slip.compensateLogs| - 1].executionId
      && ActivityLog(c.ActivityTrackingNumber(), c.ActivityName()) in slip.activityLogs
      && (forall a :: a in slip.activityLogs && a.executionId == c.ActivityTrackingNumber() ==>
            a.name == c.ActivityName())
      && c.Log() == readLog(slip)
  {
  }

  /** The integrity invariant the compensation host's check relies on: each compensate
      log belongs to exactly one logged activity execution. */
  ghost predicate WellFormed(slip: RoutingSlip)
  {
    forall i :: 0 <= i < |slip.compensateLogs| ==>
      |Matching(slip.activityLogs, slip.compensateLogs[i].executionId)| == 1
  }

  /** The slip forwarded once the selected entry has been compensated. */
  function Remaining(slip: RoutingSlip): RoutingSlip
    requires |slip.compensateLogs| > 0
  {
    slip.(compensateLogs := slip.compensateLogs[..|slip.compensateLogs| - 1])
  }

  /** The entries a chain of compensation hops selects, one per hop, when each hop
      forwards the slip without the entry it compensated. */
  function CompensationOrder(slip: RoutingSlip): seq<CompensateLog>
    decreases |slip.compensateLogs|
  {
    if |slip.compensateLogs| == 0 then []
    else [SelectCompensateLog(slip.compensateLogs)] + CompensationOrder(Remaining(slip))
  }

  /** Compensation is last-in-first-out: the hops undo the entries in exactly the reverse
      of the order in which they were pushed. */
  lemma {:induction false} CompensationOrderIsReversed(slip: RoutingSlip)
    ensures |CompensationOrder(slip)| == |slip.compensateLogs|
    ensures forall k :: 0 <= k < |slip.compensateLogs| ==>
      CompensationOrder(slip)[k] == slip.compensateLogs[|slip.compensateLogs| - 1 - k]
    decreases |slip.compensateLogs|
  {
    if |slip.compensateLogs| > 0 {
      CompensationOrderIsReversed(Remaining(slip));
    }
  }

  /** On a well-formed slip the integrity check never fires: every hop of the chain
      constructs its host, and the slip it forwards is again well-formed. */
  lemma WellFormedSlipCompensates<TLog>(host: HostInfo, slip: RoutingSlip, readLog: RoutingSlip -> TLog)
    requires WellFormed(slip)
    requires |slip.compensateLogs| > 0
    ensures Create(host, slip, readLog).Success?
    ensures WellFormed(Remaining(slip))
  {
  }

  /** The plain and the variable-carrying "compensated" results carry this host's
      selected entry and routing slip; a null argument is rejected. */
  lemma CompensatedCarriesEntry<TLog, V>(
    c: HostCompensation<TLog>, values: Option<V>, asDictionary: V -> map<string, Value>,
    variables: Option<map<string, Value>>)
    ensures c.Compensated().CompensatedResult? && c.Compensated().compensation == c
    ensures c.Compensated().compensateLog == c.compensateLog && c.Compensated().routingSlip == c.routingSlip
    ensures values.None? <==> c.CompensatedWithValues(values, asDictionary) == Failure(ArgumentNullException("values"))
    ensures values.Some? ==>
      var r := c.CompensatedWithValues(values, asDictionary);
      && r.Success? && r.value.CompensatedWithVariablesResult?
      && r.value.compensation == c && r.value.compensateLog == c.compensateLog
      && r.value.routingSlip == c.routingSlip && r.value.variables == asDictionary(values.value)
    ensures variables.None? <==> c.CompensatedWithVariables(variables) == Failure(ArgumentNullException("variables"))
    ensures variables.Some? ==>
      var r := c.CompensatedWithVariables(variables);
      && r.Success? && r.value.CompensatedWithVariablesResult?
      && r.value.compensation == c && r.value.compensateLog == c.compensateLog
      && r.value.routingSlip == c.routingSlip && r.value.variables == variables.value
  {
  }

  /** Both "failed" results carry this host's selected entry and slip; without an
      argument the exception is a routing slip exception, otherwise the one given. */
  lemma FailedCarriesException<TLog>(c: HostCompensation<TLog>, e: Exception)
    ensures c.Failed().FailedResult? && c.FailedWith(e).FailedResult?
    ensures c.Failed().compensation == c && c.FailedWith(e).compensation == c
    ensures c.Failed().compensateLog == c.compensateLog && c.Failed().routingSlip == c.routingSlip
    ensures c.FailedWith(e).compensateLog == c.compensateLog && c.FailedWith(e).routingSlip == c.routingSlip
    ensures c.Failed().exception == RoutingSlipException(CompensationFailedMessage)
    ensures c.FailedWith(e).exception == e
  {
  }
}
