/**
 Deciding whether a trigger fires: permission, then cooldown, then the
 condition against the previous value
 (internal/services/triggerevaluator/trigger_evaluator.go).
*/
module Evaluator {
  import opened Wrappers
  import opened Signals
  import opened Domain
  import H = Handlers

  const SECOND := 1_000_000_000
  const INT64_MAX := 0x7fff_ffff_ffff_ffff

  /** Two's-complement wrap-around of a 64-bit product. */
  function Wrap64(n: int): int {
    (n + INT64_MAX + 1) % (2 * (INT64_MAX + 1)) - INT64_MAX - 1
  }

  /** Difference of two times as a duration: it saturates. */
  function Since(now: int, then_: int): int {
    if now - then_ > INT64_MAX then INT64_MAX
    else if now - then_ < -INT64_MAX - 1 then -INT64_MAX - 1
    else now - then_
  }

  /** The zero time means the trigger never fired for this vehicle. */
  predicate CheckCooldown(cooldown: int, lastAt: int, now: int) {
    lastAt == 0 || Since(now, lastAt) >= Wrap64(cooldown * SECOND)
  }

  /** In the column's range neither the product nor the difference is spoilt by 64 bits. */
  lemma CooldownIsExact(cooldown: int, lastAt: int, now: int)
    requires 0 <= cooldown <= INT4_MAX
    ensures CheckCooldown(cooldown, lastAt, now) <==> lastAt == 0 || now - lastAt >= cooldown * SECOND
  {
  }

  /** Every trigger that requests can create or change has a cooldown in that range. */
  lemma ReachableCooldownIsExact(env: Env, steps: seq<H.Step>, id: string, lastAt: int, now: int)
    requires env.maxFailures >= 1 && id in H.Run(env, H.INITIAL, steps).db.triggers
    ensures var c := H.Run(env, H.INITIAL, steps).db.triggers[id].cooldown;
            CheckCooldown(c, lastAt, now) <==> lastAt == 0 || now - lastAt >= c * SECOND
  {
    H.EveryRunKeeps(env, H.INITIAL, steps);
    CooldownIsExact(H.Run(env, H.INITIAL, steps).db.triggers[id].cooldown, lastAt, now);
  }

  /** Running a program: the condition's truth, or None when evaluation fails. */
  datatype Runtime = Runtime(
    evalSignal: (Program, Signal, Signal, string) -> Option<bool>,
    evalEvent: (Program, Event, Event) -> Option<bool>)

  datatype Verdict = Fire | PermissionDenied | CoolDownNotMet | ConditionNotMet

  /** A lookup without a row stands for the empty log at the zero time. */
  function LastAt(own: Option<TriggerLog>): int {
    match own case Some(log) => log.at case None => 0
  }

  function EvaluateSignalTrigger(rt: Runtime, t: Trigger, program: Program, sig: Signal, valueType: string,
                                 granted: Result<bool, Error>, own: Result<Option<TriggerLog>, Error>,
                                 onMetric: Result<Option<TriggerLog>, Error>, now: int): Result<Verdict, Error>
  {
    if granted.Err? then Err(Internal)
    else if !granted.value then Ok(PermissionDenied)
    else if own.Err? then Err(Internal)
    else if !CheckCooldown(t.cooldown, LastAt(own.value), now) then Ok(CoolDownNotMet)
    else if onMetric.Err? then Err(Internal)
    else
      var previous := match onMetric.value case None => Some(ZERO_SIGNAL) case Some(log) => DecodeSignal(log.snapshot);
      if previous == None then Err(Internal)
      else if valueType !in {NUMBER_TYPE, STRING_TYPE, LOCATION_TYPE} then Err(Internal)
      else
        match rt.evalSignal(program, sig, previous.value, valueType)
        case None => Err(Internal)
        case Some(met) => Ok(if met then Fire else ConditionNotMet)
  }

  function EvaluateEventTrigger(rt: Runtime, t: Trigger, program: Program, ev: Event, granted: Result<bool, Error>,
                                own: Result<Option<TriggerLog>, Error>, now: int): Result<Verdict, Error>
  {
    if granted.Err? then Err(Internal)
    else if !granted.value then Ok(PermissionDenied)
    else if own.Err? then Err(Internal)
    else if !CheckCooldown(t.cooldown, LastAt(own.value), now) then Ok(CoolDownNotMet)
    else
      var previous := match own.value case None => Some(ZERO_EVENT) case Some(log) => DecodeEvent(log.snapshot);
      if previous == None then Err(Internal)
      else
        match rt.evalEvent(program, ev, previous.value)
        case None => Err(Internal)
        case Some(met) => Ok(if met then Fire else ConditionNotMet)
  }

  // ---- What each verdict means ----

  /** The pair's cooldown is over: it has no log, or one at the zero time, or a full cooldown lies since. */
  predicate Rested(t: Trigger, own: Option<TriggerLog>, now: int) {
    own.Some? && own.value.at != 0 ==> now - own.value.at >= t.cooldown * 1_000_000_000
  }

  /** The condition's truth for this signal after the metric's last logged one, or after the zero signal. */
  ghost predicate SignalHolds(rt: Runtime, program: Program, sig: Signal, valueType: string, last: Option<TriggerLog>,
                              met: bool) {
    && valueType in {"float64", "string", "vss.Location"}
    && exists previous :: (if last.Some? then DecodeSignal(last.value.snapshot) == Some(previous) else previous == ZERO_SIGNAL)
                          && rt.evalSignal(program, sig, previous, valueType) == Some(met)
  }

  /** The condition's truth for this event after the pair's last logged one, or after the zero event. */
  ghost predicate EventHolds(rt: Runtime, program: Program, ev: Event, last: Option<TriggerLog>, met: bool) {
    exists previous :: (if last.Some? then DecodeEvent(last.value.snapshot) == Some(previous) else previous == ZERO_EVENT)
                       && rt.evalEvent(program, ev, previous) == Some(met)
  }

  /** Permission, then cooldown, then condition: each verdict exactly by its own guards. */
  lemma SignalVerdicts(rt: Runtime, t: Trigger, program: Program, sig: Signal, valueType: string, granted: Result<bool, Error>,
                       own: Result<Option<TriggerLog>, Error>, onMetric: Result<Option<TriggerLog>, Error>, now: int, met: bool)
    requires 0 <= t.cooldown <= INT4_MAX
    ensures var v := EvaluateSignalTrigger(rt, t, program, sig, valueType, granted, own, onMetric, now);
            && (v == Ok(PermissionDenied) <==> granted == Ok(false))
            && (v == Ok(CoolDownNotMet) <==> granted == Ok(true) && own.Ok? && !Rested(t, own.value, now))
            && (v == Ok(if met then Fire else ConditionNotMet) <==>
                  && granted == Ok(true) && own.Ok? && Rested(t, own.value, now)
                  && onMetric.Ok? && SignalHolds(rt, program, sig, valueType, onMetric.value, met))
  {
    if own.Ok? { CooldownIsExact(t.cooldown, LastAt(own.value), now); }
    hide CheckCooldown;
  }

  lemma EventVerdicts(rt: Runtime, t: Trigger, program: Program, ev: Event, granted: Result<bool, Error>,
                      own: Result<Option<TriggerLog>, Error>, now: int, met: bool)
    requires 0 <= t.cooldown <= INT4_MAX
    ensures var v := EvaluateEventTrigger(rt, t, program, ev, granted, own, now);
            && (v == Ok(PermissionDenied) <==> granted == Ok(false))
            && (v == Ok(CoolDownNotMet) <==> granted == Ok(true) && own.Ok? && !Rested(t, own.value, now))
            && (v == Ok(if met then Fire else ConditionNotMet) <==>
                  && granted == Ok(true) && own.Ok? && Rested(t, own.value, now)
                  && EventHolds(rt, program, ev, own.value, met))
  {
    if own.Ok? { CooldownIsExact(t.cooldown, LastAt(own.value), now); }
    hide CheckCooldown;
  }
}
