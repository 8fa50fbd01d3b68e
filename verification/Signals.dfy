/**
 The signal schema: names, definitions and the prefix that metric names of
 signal triggers carry (internal/signals/signals.go).
*/
module Signals {
  import opened Wrappers

  const NUMBER_TYPE := "float64"
  const STRING_TYPE := "string"
  const LOCATION_TYPE := "vss.Location"

  /** Schema prefix of the metric name of a signal trigger. */
  const VSS_PREFIX := "vss."

  const DEFAULT_PERMISSIONS := ["privilege:GetNonLocationHistory", "privilege:GetLocationHistory"]

  datatype SignalDefinition =
    SignalDefinition(name: string, valueType: string, unit: string, description: string, permissions: seq<string>)

  /** Definitions by bare signal name, loaded once at start-up. */
  type Schema = map<string, SignalDefinition>

  function TrimPrefix(s: string, prefix: string): string {
    if prefix <= s then s[|prefix|..] else s
  }

  function BareSignalName(metricName: string): string {
    TrimPrefix(metricName, VSS_PREFIX)
  }

  function DefaultDefinition(name: string, valueType: string): SignalDefinition {
    SignalDefinition(name, valueType, "", "", DEFAULT_PERMISSIONS)
  }

  function GetSignalDefinitionOrDefault(schema: Schema, name: string, valueType: string): SignalDefinition {
    if name in schema then schema[name] else DefaultDefinition(name, valueType)
  }

  /** A signal as the schema library reports it, before privileges are translated. */
  datatype SignalInfo =
    SignalInfo(jsonName: string, goType: string, unit: string, desc: string, privileges: seq<string>)

  /** Privilege names of the schema, translated; an unknown privilege becomes the empty string. */
  const PRIVILEGE_MAP: map<string, string> :=
    map["VEHICLE_NON_LOCATION_DATA" := "privilege:GetNonLocationHistory",
        "VEHICLE_ALL_TIME_LOCATION" := "privilege:GetLocationHistory",
        "VEHICLE_APPROXIMATE_LOCATION" := "privilege:GetApproximateLocation"]

  function TranslatePrivilege(privilege: string): string {
    if privilege in PRIVILEGE_MAP then PRIVILEGE_MAP[privilege] else ""
  }

  /** The default permissions are the two privileges of whole histories; the third known one is for approximate locations. */
  lemma DefaultsAreHistories(privilege: string)
    ensures DEFAULT_PERMISSIONS
            == [TranslatePrivilege("VEHICLE_NON_LOCATION_DATA"), TranslatePrivilege("VEHICLE_ALL_TIME_LOCATION")]
    ensures TranslatePrivilege("VEHICLE_APPROXIMATE_LOCATION") == "privilege:GetApproximateLocation"
    ensures privilege !in {"VEHICLE_NON_LOCATION_DATA", "VEHICLE_ALL_TIME_LOCATION", "VEHICLE_APPROXIMATE_LOCATION"} ==>
              TranslatePrivilege(privilege) == ""
  {
  }

  /** True when def is what the loader must record for info. */
  ghost predicate Defines(def: SignalDefinition, info: SignalInfo) {
    && def.name == info.jsonName && def.valueType == info.goType
    && def.unit == info.unit && def.description == info.desc
    && |def.permissions| == |info.privileges|
    && forall k :: 0 <= k < |info.privileges| ==> def.permissions[k] == TranslatePrivilege(info.privileges[k])
  }

  /** One definition, its privileges translated one by one. */
  method DefineSignal(info: SignalInfo) returns (def: SignalDefinition)
    ensures Defines(def, info)
  {
    var permissions: seq<string> := [];
    for p := 0 to |info.privileges|
      invariant |permissions| == p
      invariant forall k :: 0 <= k < p ==> permissions[k] == TranslatePrivilege(info.privileges[k])
    {
      permissions := permissions + [TranslatePrivilege(info.privileges[p])];
    }
    def := SignalDefinition(info.jsonName, info.goType, info.unit, info.desc, permissions);
  }

  /**
   Loads the schema: the list keeps every signal in order, and the map answers
   each name with the last definition of that name and nothing else.
  */
  method LoadSignalDefs(infos: seq<SignalInfo>) returns (schema: Schema, defs: seq<SignalDefinition>)
    ensures |defs| == |infos| && forall i :: 0 <= i < |infos| ==> Defines(defs[i], infos[i])
    ensures forall n :: n in schema <==> exists i :: 0 <= i < |infos| && infos[i].jsonName == n
    ensures forall n :: n in schema ==> schema[n] in defs
    ensures forall i :: 0 <= i < |infos| && (forall j :: i < j < |infos| ==> infos[j].jsonName != infos[i].jsonName)
              ==> infos[i].jsonName in schema && schema[infos[i].jsonName] == defs[i]
  {
    schema, defs := map[], [];
    for i := 0 to |infos|
      invariant |defs| == i && forall k :: 0 <= k < i ==> Defines(defs[k], infos[k])
      invariant forall n :: n in schema <==> exists k :: 0 <= k < i && infos[k].jsonName == n
      invariant forall n :: n in schema ==> schema[n] in defs
      invariant forall k :: 0 <= k < i && (forall j :: k < j < i ==> infos[j].jsonName != infos[k].jsonName)
                  ==> infos[k].jsonName in schema && schema[infos[k].jsonName] == defs[k]
    {
      var info := infos[i];
      var def := DefineSignal(info);
      defs := defs + [def];
      schema := schema[info.jsonName := def];
    }
  }

  /** The location part of a signal value; the zero location means "none". */
  datatype Location = Location(latitude: real, longitude: real, hdop: real)

  const NO_LOCATION := Location(0.0, 0.0, 0.0)

  datatype Signal = Signal(name: string, source: string, number: real, text: string, location: Location)

  const ZERO_SIGNAL := Signal("", "", 0.0, "", NO_LOCATION)

  /** Value type used for a signal that the schema does not define. */
  function InferSignalValueType(sig: Signal): string {
    if sig.location != NO_LOCATION then LOCATION_TYPE
    else if sig.text != "" then STRING_TYPE
    else NUMBER_TYPE
  }

  /** Permissions asked for when a vehicle is subscribed to a trigger. */
  function SubscribePermissions(schema: Schema, isSignal: bool, metricName: string): seq<string> {
    if isSignal then GetSignalDefinitionOrDefault(schema, BareSignalName(metricName), NUMBER_TYPE).permissions
    else DEFAULT_PERMISSIONS
  }

  /** Definition used when a received signal is evaluated and delivered. */
  function DeliveryDefinition(schema: Schema, sig: Signal): SignalDefinition {
    GetSignalDefinitionOrDefault(schema, sig.name, InferSignalValueType(sig))
  }

  /** A signal trigger needs what the schema asks for its signal; without a definition, and for events, both histories. */
  lemma PermissionsNeeded(schema: Schema, name: string, metricName: string)
    ensures SubscribePermissions(schema, true, "vss." + name)
            == if name in schema then schema[name].permissions else DEFAULT_PERMISSIONS
    ensures SubscribePermissions(schema, false, metricName)
            == ["privilege:GetNonLocationHistory", "privilege:GetLocationHistory"]
  {
  }

  /** Stripping undoes prefixing, whatever the signal is called. */
  lemma BareNameInvertsPrefix(name: string)
    ensures BareSignalName(VSS_PREFIX + name) == name
  {
  }

  /** A signal trigger can be matched by some received signal exactly when its metric name carries the prefix. */
  lemma MatchableIffPrefixed(metricName: string)
    ensures VSS_PREFIX <= metricName <==> exists sig: Signal :: VSS_PREFIX + sig.name == metricName
  {
    if VSS_PREFIX <= metricName {
      var sig := ZERO_SIGNAL.(name := BareSignalName(metricName));
      assert VSS_PREFIX + sig.name == metricName;
    }
  }

  /**
   A signal that matches a cached trigger is checked at delivery for the same
   permissions as the subscription was, and its value type is the one the
   condition was compiled for exactly when the schema names the signal or the
   signal carries neither a location nor a text.
  */
  lemma SubscribeAndDeliveryAgree(schema: Schema, metricName: string, sig: Signal)
    requires VSS_PREFIX + sig.name == metricName
    ensures DeliveryDefinition(schema, sig).permissions == SubscribePermissions(schema, true, metricName)
    ensures DeliveryDefinition(schema, sig).valueType
              == GetSignalDefinitionOrDefault(schema, BareSignalName(metricName), NUMBER_TYPE).valueType
            <==> sig.name in schema || (sig.location == NO_LOCATION && sig.text == "")
  {
  }
}
