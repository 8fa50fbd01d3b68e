/**
 The rows of the three tables and the environment in which conditions are
 compiled. Asset DIDs and developer licenses are kept by their string forms;
 the empty string is the zero DID and the zero address.
*/
module Domain {
  import opened Wrappers
  import opened Signals

  const SERVICE_SIGNAL := "signals"
  const SERVICE_EVENT := "events"

  predicate IsSignalService(service: string) { service == SERVICE_SIGNAL }

  predicate IsEventService(service: string) { service == SERVICE_EVENT }

  datatype Status = Enabled | Disabled | Failed | Deleted

  /** A status as written in a request; None when the column's check constraint refuses the text. */
  function ParseStatus(text: string): Option<Status> {
    if text == "enabled" then Some(Enabled)
    else if text == "disabled" then Some(Disabled)
    else if text == "failed" then Some(Failed)
    else if text == "deleted" then Some(Deleted)
    else None
  }

  /** A status as the column holds it. */
  function StatusText(status: Status): string {
    match status
    case Enabled => "enabled"
    case Disabled => "disabled"
    case Failed => "failed"
    case Deleted => "deleted"
  }

  /** The check constraint passes the four texts, and each is read as the status it is the text of. */
  lemma ParsesExactly(text: string)
    ensures ParseStatus(text).Some? <==> text in {"enabled", "disabled", "failed", "deleted"}
    ensures ParseStatus(text).Some? ==> StatusText(ParseStatus(text).value) == text
    ensures ParseStatus("enabled") == Some(Enabled) && ParseStatus("disabled") == Some(Disabled)
            && ParseStatus("failed") == Some(Failed) && ParseStatus("deleted") == Some(Deleted)
  {
  }

  datatype Trigger = Trigger(
    id: string,
    owner: string,
    displayName: string,
    service: string,
    metricName: string,
    condition: string,
    targetUri: string,
    description: string,
    cooldown: int,
    status: Status,
    failures: int)

  datatype Subscription = Subscription(asset: string, triggerId: string)

  datatype Event = Event(name: string, source: string, durationNs: int, metadata: string)

  const ZERO_EVENT := Event("", "", 0, "")

  /** The JSON stored with a log: a signal, an event, or text that is neither. */
  datatype Snapshot = SignalSnapshot(signal: Signal) | EventSnapshot(event: Event) | MalformedSnapshot

  /** Decoding one kind as the other keeps the shared header and leaves the values zero. */
  function DecodeSignal(s: Snapshot): Option<Signal> {
    match s
    case SignalSnapshot(sig) => Some(sig)
    case EventSnapshot(ev) => Some(ZERO_SIGNAL.(name := ev.name, source := ev.source))
    case MalformedSnapshot => None
  }

  function DecodeEvent(s: Snapshot): Option<Event> {
    match s
    case SignalSnapshot(sig) => Some(ZERO_EVENT.(name := sig.name, source := sig.source))
    case EventSnapshot(ev) => Some(ev)
    case MalformedSnapshot => None
  }

  /** A log row; `at` is in nanoseconds and 0 is Go's zero time. */
  datatype TriggerLog = TriggerLog(id: string, triggerId: string, asset: string, snapshot: Snapshot, at: int)

  /** The database: keys are the tables' primary keys, and the log is in insertion order. */
  datatype Db = Db(triggers: map<string, Trigger>, subs: set<Subscription>, logs: seq<TriggerLog>)

  const EMPTY_DB := Db(map[], {}, [])

  datatype Error = Invalid | NotFound | DuplicateName | AlreadySubscribed | Forbidden | Internal

  /** What a repository call leaves behind and what it returns. */
  datatype Outcome<+T> = Outcome(db: Db, result: Result<T, Error>)

  /** Range of the `integer` columns cooldown_period and failure_count. */
  const INT4_MAX := 0x7fff_ffff

  predicate FitsInt4(n: int) { -INT4_MAX - 1 <= n <= INT4_MAX }

  datatype Program = Program(text: string)

  /**
   The deployment: the loaded schema, the two CEL environments (a program, or
   None when the text does not compile to a boolean), the URL check, and the
   failure threshold.
  */
  datatype Env = Env(
    schema: Schema,
    compileSignal: (string, string) -> Option<Program>,
    compileEvent: string -> Option<Program>,
    urlOk: string -> bool,
    maxFailures: int)

  function PrepareCondition(env: Env, service: string, condition: string, valueType: string): Option<Program> {
    if IsSignalService(service) then
      if valueType in {NUMBER_TYPE, STRING_TYPE, LOCATION_TYPE} then env.compileSignal(condition, valueType) else None
    else if IsEventService(service) then env.compileEvent(condition)
    else None
  }

  /** The value type the cache builder compiles a trigger with. */
  function BuilderValueType(env: Env, service: string, metricName: string): string {
    if IsSignalService(service)
    then GetSignalDefinitionOrDefault(env.schema, BareSignalName(metricName), NUMBER_TYPE).valueType
    else ""
  }

  /**
   A condition of a signal trigger is compiled with the type the schema gives
   the bare name, float64 when it gives none; one of an event trigger with no
   type; and no other service compiles.
  */
  lemma PreparesExactly(env: Env, service: string, metricName: string, name: string, condition: string)
    requires metricName == "vss." + name || (metricName == name && !("vss." <= metricName))
    ensures var prepared := PrepareCondition(env, service, condition, BuilderValueType(env, service, metricName));
            var valueType := if name in env.schema then env.schema[name].valueType else "float64";
            && (service == "events" ==> prepared == env.compileEvent(condition))
            && (service == "signals" ==>
                  prepared == if valueType in {"float64", "string", "vss.Location"} then env.compileSignal(condition, valueType)
                              else None)
            && (service !in {"signals", "events"} ==> prepared == None)
  {
  }

  /** The builder's type is the type at delivery exactly when the schema names the signal or it is a bare number. */
  lemma DeliveredAsCompiled(env: Env, metricName: string, sig: Signal)
    requires metricName == "vss." + sig.name
    ensures DeliveryDefinition(env.schema, sig).valueType == BuilderValueType(env, "signals", metricName)
            <==> sig.name in env.schema || (sig.location == NO_LOCATION && sig.text == "")
  {
    SubscribeAndDeliveryAgree(env.schema, metricName, sig);
  }

  /** Each kind of snapshot is decoded as itself; read as the other kind it has its header and no value. */
  lemma DecodesItself(sig: Signal, ev: Event)
    ensures DecodeSignal(SignalSnapshot(sig)) == Some(sig) && DecodeEvent(EventSnapshot(ev)) == Some(ev)
    ensures DecodeSignal(EventSnapshot(ev)) == Some(Signal(ev.name, ev.source, 0.0, "", Location(0.0, 0.0, 0.0)))
    ensures DecodeEvent(SignalSnapshot(sig)) == Some(Event(sig.name, sig.source, 0, ""))
  {
  }

  /** The failure threshold a listener works with. */
  function ClampThreshold(configured: int): (max: int)
    ensures max >= 1 && (configured >= 1 ==> max == configured) && (configured < 1 ==> max == 1)
  {
    if configured < 1 then 1 else configured
  }
}
