/**
 Whole runs of evaluations and deliveries over the log table: evaluations of
 different (trigger, vehicle) pairs interleave freely, those of one pair do
 not overlap, and the clock never runs backwards.
*/
module FiringRuns {
  import opened Wrappers
  import opened Signals
  import opened Domain
  import opened Repository
  import opened Evaluator
  import opened WebhookIndex
  import D = Deliveries

  /** The webhooks being served, by trigger id, fixed for the run. */
  datatype Setup = Setup(rt: Runtime, webhooks: map<string, Webhook>)

  /** An evaluation that decided to fire and is being delivered. */
  datatype Firing = Firing(snapshot: Snapshot, begun: int)

  datatype State = State(logs: seq<TriggerLog>, clock: int, firing: map<Subscription, Firing>)

  datatype Step =
    | EvaluateSignal(pair: Subscription, now: int, granted: bool, own: Option<TriggerLog>, onMetric: Option<TriggerLog>,
                     sig: Signal, valueType: string)
    | EvaluateEvent(pair: Subscription, now: int, granted: bool, own: Option<TriggerLog>, ev: Event)
    | Finish(pair: Subscription, now: int, logId: string, logged: bool)

  function Triggers(setup: Setup): map<string, Trigger> {
    map id | id in setup.webhooks :: setup.webhooks[id].trigger
  }

  function Tables(setup: Setup, logs: seq<TriggerLog>): Db { Db(Triggers(setup), {}, logs) }

  /** What the lookups return is a latest log; which one, when times are equal, is open. */
  ghost predicate Enabled(setup: Setup, s: State, step: Step) {
    && step.now >= s.clock
    && step.pair.triggerId in setup.webhooks
    && match step
       case EvaluateSignal(pair, _, _, own, onMetric, _, _) =>
         var t := setup.webhooks[pair.triggerId].trigger;
         && IsSignalService(t.service) && pair !in s.firing
         && IsLatest(s.logs, {pair.triggerId}, pair.asset, own)
         && IsLatestForMetric(Tables(setup, s.logs), pair.asset, t.metricName, onMetric)
       case EvaluateEvent(pair, _, _, own, _) =>
         && IsEventService(setup.webhooks[pair.triggerId].trigger.service) && pair !in s.firing
         && IsLatest(s.logs, {pair.triggerId}, pair.asset, own)
       case Finish(pair, _, _, _) => pair in s.firing
  }

  function Decide(setup: Setup, step: Step): Result<Verdict, Error>
    requires step.pair.triggerId in setup.webhooks && !step.Finish?
  {
    var wh := setup.webhooks[step.pair.triggerId];
    match step
    case EvaluateSignal(_, now, granted, own, onMetric, sig, valueType) =>
      EvaluateSignalTrigger(setup.rt, wh.trigger, wh.program, sig, valueType, Ok(granted), Ok(own), Ok(onMetric), now)
    case EvaluateEvent(_, now, granted, own, ev) =>
      EvaluateEventTrigger(setup.rt, wh.trigger, wh.program, ev, Ok(granted), Ok(own), now)
  }

  /** A delivery that succeeds is logged with the time of the log, not of the evaluation; any other outcome leaves no log. */
  function Next(setup: Setup, s: State, step: Step): State
    requires step.pair.triggerId in setup.webhooks
    requires step.Finish? ==> step.pair in s.firing
  {
    match step
    case Finish(pair, now, logId, logged) =>
      var log := TriggerLog(logId, pair.triggerId, pair.asset, s.firing[pair].snapshot, now);
      State(if logged then s.logs + [log] else s.logs, now, s.firing - {pair})
    case _ =>
      if Decide(setup, step) == Ok(Fire) then
        var snapshot := if step.EvaluateSignal? then SignalSnapshot(step.sig) else EventSnapshot(step.ev);
        State(s.logs, step.now, s.firing[step.pair := Firing(snapshot, step.now)])
      else s.(clock := step.now)
  }

  ghost predicate Runs(setup: Setup, s: State, steps: seq<Step>)
    decreases |steps|
  {
    steps == [] || (Enabled(setup, s, steps[0]) && Runs(setup, Next(setup, s, steps[0]), steps[1..]))
  }

  ghost function Run(setup: Setup, s: State, steps: seq<Step>): State
    requires Runs(setup, s, steps)
    decreases |steps|
  {
    if steps == [] then s else Run(setup, Next(setup, s, steps[0]), steps[1..])
  }

  // ---- Cooldown ----

  predicate OfPair(log: TriggerLog, pair: Subscription) { log.triggerId == pair.triggerId && log.asset == pair.asset }

  ghost predicate CooldownsFit(setup: Setup) {
    forall id :: id in setup.webhooks ==> 0 <= setup.webhooks[id].trigger.cooldown <= INT4_MAX
  }

  /** Nanoseconds between two firings of the trigger. */
  function Gap(setup: Setup, id: string): int
    requires id in setup.webhooks
  {
    setup.webhooks[id].trigger.cooldown * SECOND
  }

  ghost predicate Spaced(setup: Setup, logs: seq<TriggerLog>) {
    forall i, j :: 0 <= i < j < |logs| && logs[i].triggerId == logs[j].triggerId && logs[i].asset == logs[j].asset
      && logs[i].triggerId in setup.webhooks
      ==> logs[j].at - logs[i].at >= Gap(setup, logs[i].triggerId)
  }

  ghost predicate CooldownOk(setup: Setup, s: State) {
    && s.clock >= 1
    && (forall i :: 0 <= i < |s.logs| ==> 1 <= s.logs[i].at <= s.clock)
    && (forall i, j :: 0 <= i < j < |s.logs| ==> s.logs[i].at <= s.logs[j].at)
    && Spaced(setup, s.logs)
    && (forall pair :: pair in s.firing ==> pair.triggerId in setup.webhooks && ReadyToLog(setup, s, pair))
  }

  /** The firing began a full cooldown after every log of its pair. */
  ghost predicate ReadyToLog(setup: Setup, s: State, pair: Subscription)
    requires pair in s.firing && pair.triggerId in setup.webhooks
  {
    && s.firing[pair].begun <= s.clock
    && forall i :: 0 <= i < |s.logs| && OfPair(s.logs[i], pair)
         ==> s.firing[pair].begun - s.logs[i].at >= Gap(setup, pair.triggerId)
  }

  /** A verdict to fire means the cooldown since the pair's latest log is over. */
  lemma FiringIsReady(setup: Setup, s: State, step: Step)
    requires CooldownsFit(setup) && CooldownOk(setup, s) && Enabled(setup, s, step) && !step.Finish?
    requires Decide(setup, step) == Ok(Fire)
    ensures forall i :: 0 <= i < |s.logs| && OfPair(s.logs[i], step.pair)
              ==> step.now - s.logs[i].at >= Gap(setup, step.pair.triggerId)
  {
    CooldownIsExact(setup.webhooks[step.pair.triggerId].trigger.cooldown, LastAt(step.own), step.now);
    forall i | 0 <= i < |s.logs| && OfPair(s.logs[i], step.pair)
      ensures step.now - s.logs[i].at >= Gap(setup, step.pair.triggerId)
    {
      assert s.logs[i] in s.logs;
      assert step.own.Some?;
    }
  }

  lemma CooldownFinish(setup: Setup, s: State, step: Step)
    requires CooldownOk(setup, s) && Enabled(setup, s, step) && step.Finish?
    ensures CooldownOk(setup, Next(setup, s, step))
  {
    var s' := Next(setup, s, step);
    assert ReadyToLog(setup, s, step.pair);
    forall pair | pair in s'.firing ensures pair.triggerId in setup.webhooks && ReadyToLog(setup, s', pair) {
      assert ReadyToLog(setup, s, pair);
    }
  }

  /** Time passes, and a firing that is ready may begin. */
  lemma CooldownFiring(setup: Setup, s: State, now: int, pair: Subscription, snapshot: Snapshot)
    requires CooldownOk(setup, s) && now >= s.clock && pair.triggerId in setup.webhooks && pair !in s.firing
    ensures CooldownOk(setup, s.(clock := now))
    ensures (forall i :: 0 <= i < |s.logs| && OfPair(s.logs[i], pair) ==> now - s.logs[i].at >= Gap(setup, pair.triggerId))
            ==> CooldownOk(setup, State(s.logs, now, s.firing[pair := Firing(snapshot, now)]))
  {
    hide Spaced, OfPair, Gap;
    forall p | p in s.firing ensures ReadyToLog(setup, s.(clock := now), p) {
      assert ReadyToLog(setup, s, p);
    }
    var s' := State(s.logs, now, s.firing[pair := Firing(snapshot, now)]);
    forall p | p in s.firing ensures ReadyToLog(setup, s', p) {
      assert ReadyToLog(setup, s, p);
    }
  }

  lemma CooldownEvaluate(setup: Setup, s: State, step: Step)
    requires CooldownsFit(setup) && CooldownOk(setup, s) && Enabled(setup, s, step) && !step.Finish?
    ensures CooldownOk(setup, Next(setup, s, step))
  {
    if Decide(setup, step) == Ok(Fire) { FiringIsReady(setup, s, step); }
    CooldownFiring(setup, s, step.now, step.pair, if step.EvaluateSignal? then SignalSnapshot(step.sig) else EventSnapshot(step.ev));
    hide Decide, CooldownOk, CooldownsFit, OfPair, Gap, IsLatest, IsLatestForMetric;
  }

  /** In every run any two logs of one pair are at least the cooldown apart. */
  lemma {:induction false} LogsAreSpaced(setup: Setup, s: State, steps: seq<Step>)
    requires CooldownsFit(setup) && CooldownOk(setup, s) && Runs(setup, s, steps)
    ensures CooldownOk(setup, Run(setup, s, steps))
    decreases |steps|
  {
    if steps != [] {
      if steps[0].Finish? { CooldownFinish(setup, s, steps[0]); } else { CooldownEvaluate(setup, s, steps[0]); }
      LogsAreSpaced(setup, Next(setup, s, steps[0]), steps[1..]);
    }
  }

  /** How many logs of the pair lie in the window. */
  function CountIn(logs: seq<TriggerLog>, pair: Subscription, from: int, length: nat): nat {
    if logs == [] then 0
    else
      var last := logs[|logs| - 1];
      CountIn(logs[..|logs| - 1], pair, from, length)
        + if OfPair(last, pair) && from <= last.at <= from + length then 1 else 0
  }

  ghost predicate Apart(logs: seq<TriggerLog>, pair: Subscription, gap: nat) {
    forall i, j :: 0 <= i < j < |logs| && OfPair(logs[i], pair) && OfPair(logs[j], pair) ==> logs[j].at - logs[i].at >= gap
  }

  /** The latest counted log is late enough for all that were counted before it. */
  ghost predicate LoggedAt(logs: seq<TriggerLog>, pair: Subscription, at: int) {
    exists i :: 0 <= i < |logs| && OfPair(logs[i], pair) && logs[i].at == at
  }

  /** One more log keeps the earlier ones apart, and is apart from them if it is the pair's. */
  lemma LastIsApart(logs: seq<TriggerLog>, pair: Subscription, gap: nat, at: int)
    requires logs != [] && Apart(logs, pair, gap)
    ensures Apart(logs[..|logs| - 1], pair, gap)
    ensures LoggedAt(logs[..|logs| - 1], pair, at) ==> LoggedAt(logs, pair, at)
    ensures OfPair(logs[|logs| - 1], pair) ==>
              LoggedAt(logs, pair, logs[|logs| - 1].at)
              && (LoggedAt(logs[..|logs| - 1], pair, at) ==> logs[|logs| - 1].at - at >= gap)
  {
    var rest := logs[..|logs| - 1];
    assert forall i :: 0 <= i < |rest| ==> rest[i] == logs[i];
  }

  lemma OneMoreTimes(n: nat, gap: nat)
    ensures n * gap == (n - 1) * gap + gap
  {
  }

  lemma {:induction false} CountFitsBefore(logs: seq<TriggerLog>, pair: Subscription, gap: nat, from: int, length: nat)
    returns (latest: int)
    requires Apart(logs, pair, gap)
    ensures var n := CountIn(logs, pair, from, length);
            n == 0 || (latest <= from + length && latest - from >= (n - 1) * gap && LoggedAt(logs, pair, latest))
  {
    latest := 0;
    if logs != [] {
      var last := logs[|logs| - 1];
      LastIsApart(logs, pair, gap, latest);
      latest := CountFitsBefore(logs[..|logs| - 1], pair, gap, from, length);
      LastIsApart(logs, pair, gap, latest);
      OneMoreTimes(CountIn(logs[..|logs| - 1], pair, from, length), gap);
      hide Apart, LoggedAt, OfPair;
      if OfPair(last, pair) && from <= last.at <= from + length { latest := last.at; }
    }
  }

  lemma SpacedIsApart(setup: Setup, logs: seq<TriggerLog>, pair: Subscription)
    requires Spaced(setup, logs) && pair.triggerId in setup.webhooks && Gap(setup, pair.triggerId) >= 0
    ensures Apart(logs, pair, Gap(setup, pair.triggerId))
  {
  }

  /** Any window of length W holds at most W/c + 1 logs of a pair whose cooldown c is positive. */
  lemma WindowBound(setup: Setup, s: State, steps: seq<Step>, pair: Subscription, from: int, length: nat)
    requires CooldownsFit(setup) && CooldownOk(setup, s) && Runs(setup, s, steps)
    requires pair.triggerId in setup.webhooks && setup.webhooks[pair.triggerId].trigger.cooldown > 0
    ensures (CountIn(Run(setup, s, steps).logs, pair, from, length) - 1) * Gap(setup, pair.triggerId) <= length
  {
    LogsAreSpaced(setup, s, steps);
    SpacedFits(setup, Run(setup, s, steps).logs, pair, from, length);
  }

  lemma SpacedFits(setup: Setup, logs: seq<TriggerLog>, pair: Subscription, from: int, length: nat)
    requires Spaced(setup, logs) && pair.triggerId in setup.webhooks && Gap(setup, pair.triggerId) > 0
    ensures (CountIn(logs, pair, from, length) - 1) * Gap(setup, pair.triggerId) <= length
  {
    SpacedIsApart(setup, logs, pair);
    hide Spaced, Apart, Gap, LoggedAt;
    var latest := CountFitsBefore(logs, pair, Gap(setup, pair.triggerId), from, length);
  }

  // ---- Transitions ----

  /** Evaluations of one vehicle on this metric do not overlap either, and a log is later than everything before it. */
  ghost predicate MetricSerial(setup: Setup, s: State, step: Step, asset: string, metricName: string) {
    && ((!step.Finish? && Concerns(setup, step.pair, asset, metricName))
        ==> forall pair :: pair in s.firing ==> !Concerns(setup, pair, asset, metricName))
    && (step.Finish? ==> step.now > s.clock)
  }

  predicate Concerns(setup: Setup, pair: Subscription, asset: string, metricName: string) {
    && pair.asset == asset && pair.triggerId in setup.webhooks
    && setup.webhooks[pair.triggerId].trigger.metricName == metricName
  }

  ghost predicate SerialRun(setup: Setup, s: State, steps: seq<Step>, asset: string, metricName: string)
    requires Runs(setup, s, steps)
    decreases |steps|
  {
    steps == [] || (MetricSerial(setup, s, steps[0], asset, metricName)
                    && SerialRun(setup, Next(setup, s, steps[0]), steps[1..], asset, metricName))
  }

  /** Only signal triggers watch the metric, and their conditions hold only when the reading changed. */
  ghost predicate FiresOnChange<V(!new)>(setup: Setup, metricName: string, reading: Signal -> V) {
    forall id :: id in setup.webhooks && setup.webhooks[id].trigger.metricName == metricName ==>
      && !IsEventService(setup.webhooks[id].trigger.service)
      && forall cur, prev, vt :: setup.rt.evalSignal(setup.webhooks[id].program, cur, prev, vt) == Some(true)
           ==> reading(cur) != reading(prev)
  }

  predicate OnIt(setup: Setup, log: TriggerLog, asset: string, metricName: string) {
    OnMetric(Tables(setup, []), log, asset, metricName)
  }

  /** No log of this vehicle and metric lies between the two. */
  ghost predicate Adjacent(setup: Setup, logs: seq<TriggerLog>, i: int, j: int, asset: string, metricName: string) {
    && 0 <= i < j < |logs| && OnIt(setup, logs[i], asset, metricName) && OnIt(setup, logs[j], asset, metricName)
    && forall k :: i < k < j ==> !OnIt(setup, logs[k], asset, metricName)
  }

  predicate Differ<V(==)>(a: Snapshot, b: Snapshot, reading: Signal -> V) {
    a.SignalSnapshot? && b.SignalSnapshot? && reading(a.signal) != reading(b.signal)
  }

  ghost predicate Transitions<V(!new)>(setup: Setup, s: State, asset: string, metricName: string, reading: Signal -> V) {
    && (forall i, j :: 0 <= i < j < |s.logs| ==> s.logs[i].at < s.logs[j].at)
    && (forall i :: 0 <= i < |s.logs| ==> s.logs[i].at <= s.clock)
    && (forall i :: 0 <= i < |s.logs| && OnIt(setup, s.logs[i], asset, metricName) ==> s.logs[i].snapshot.SignalSnapshot?)
    && (forall i, j :: Adjacent(setup, s.logs, i, j, asset, metricName)
          ==> Differ(s.logs[i].snapshot, s.logs[j].snapshot, reading))
    && (forall p, q ::
          p in s.firing && q in s.firing && Concerns(setup, p, asset, metricName) && Concerns(setup, q, asset, metricName)
          ==> p == q)
    && (forall p :: p in s.firing && Concerns(setup, p, asset, metricName) ==>
          && s.firing[p].snapshot.SignalSnapshot?
          && AwayFromLast(setup, s.logs, s.firing[p].snapshot, asset, metricName, reading))
  }

  /** The snapshot's reading differs from that of the last log of this vehicle and metric, if there is one. */
  ghost predicate AwayFromLast<V(!new)>(setup: Setup, logs: seq<TriggerLog>, snapshot: Snapshot, asset: string,
                                        metricName: string, reading: Signal -> V) {
    forall i :: IsLastOn(setup, logs, i, asset, metricName) ==> Differ(logs[i].snapshot, snapshot, reading)
  }

  ghost predicate IsLastOn(setup: Setup, logs: seq<TriggerLog>, i: int, asset: string, metricName: string) {
    && 0 <= i < |logs| && OnIt(setup, logs[i], asset, metricName)
    && forall k :: i < k < |logs| ==> !OnIt(setup, logs[k], asset, metricName)
  }

  /** With strictly increasing times the lookup can only return the last log of the metric. */
  lemma LookupIsLast<V(!new)>(setup: Setup, s: State, asset: string, metricName: string, answer: Option<TriggerLog>,
                              i: int, reading: Signal -> V)
    requires Transitions(setup, s, asset, metricName, reading) && IsLastOn(setup, s.logs, i, asset, metricName)
    requires IsLatestForMetric(Tables(setup, s.logs), asset, metricName, answer)
    ensures answer == Some(s.logs[i])
  {
    assert s.logs[i] in s.logs && OnMetric(Tables(setup, s.logs), s.logs[i], asset, metricName);
    var k :| 0 <= k < |s.logs| && s.logs[k] == answer.value;
    assert OnIt(setup, s.logs[k], asset, metricName);
  }

  /** Time passes, and a firing away from the last reading may begin. */
  lemma TransitionFiring<V(!new)>(setup: Setup, s: State, now: int, pair: Subscription, snapshot: Snapshot, asset: string,
                                  metricName: string, reading: Signal -> V)
    requires Transitions(setup, s, asset, metricName, reading) && now >= s.clock
    ensures Transitions(setup, s.(clock := now), asset, metricName, reading)
    ensures (Concerns(setup, pair, asset, metricName) ==>
               && (forall p :: p in s.firing ==> !Concerns(setup, p, asset, metricName))
               && snapshot.SignalSnapshot? && AwayFromLast(setup, s.logs, snapshot, asset, metricName, reading))
            ==> Transitions(setup, State(s.logs, now, s.firing[pair := Firing(snapshot, now)]), asset, metricName, reading)
  {
    hide Adjacent, Differ, AwayFromLast, Concerns, OnIt;
  }

  lemma FiredAwayFromLast<V(!new)>(setup: Setup, s: State, step: Step, asset: string, metricName: string,
                                   reading: Signal -> V)
    requires FiresOnChange(setup, metricName, reading) && Transitions(setup, s, asset, metricName, reading)
    requires Enabled(setup, s, step) && step.EvaluateSignal? && Concerns(setup, step.pair, asset, metricName)
    requires Decide(setup, step) == Ok(Fire)
    ensures AwayFromLast(setup, s.logs, SignalSnapshot(step.sig), asset, metricName, reading)
  {
    forall i | IsLastOn(setup, s.logs, i, asset, metricName)
      ensures Differ(s.logs[i].snapshot, SignalSnapshot(step.sig), reading)
    {
      LookupIsLast(setup, s, asset, metricName, step.onMetric, i, reading);
      hide Adjacent, AwayFromLast, CheckCooldown, IsLatest, IsLatestForMetric;
    }
  }

  lemma TransitionEvaluate<V(!new)>(setup: Setup, s: State, step: Step, asset: string, metricName: string,
                                    reading: Signal -> V)
    requires FiresOnChange(setup, metricName, reading) && Transitions(setup, s, asset, metricName, reading)
    requires Enabled(setup, s, step) && MetricSerial(setup, s, step, asset, metricName) && !step.Finish?
    ensures Transitions(setup, Next(setup, s, step), asset, metricName, reading)
  {
    var snapshot := if step.EvaluateSignal? then SignalSnapshot(step.sig) else EventSnapshot(step.ev);
    if Concerns(setup, step.pair, asset, metricName) {
      assert step.EvaluateSignal?;
      if Decide(setup, step) == Ok(Fire) { FiredAwayFromLast(setup, s, step, asset, metricName, reading); }
    }
    TransitionFiring(setup, s, step.now, step.pair, snapshot, asset, metricName, reading);
    hide Decide, Transitions, AwayFromLast, Concerns, IsLatest, IsLatestForMetric, FiresOnChange;
  }

  /** A log appended elsewhere leaves the neighbours alone; one appended here has the last log as its neighbour. */
  lemma AppendLog<V(!new)>(setup: Setup, logs: seq<TriggerLog>, log: TriggerLog, asset: string, metricName: string,
                           reading: Signal -> V)
    requires forall i, j :: Adjacent(setup, logs, i, j, asset, metricName) ==> Differ(logs[i].snapshot, logs[j].snapshot, reading)
    requires OnIt(setup, log, asset, metricName) ==> AwayFromLast(setup, logs, log.snapshot, asset, metricName, reading)
    ensures var logs' := logs + [log];
            forall i, j :: Adjacent(setup, logs', i, j, asset, metricName)
              ==> Differ(logs'[i].snapshot, logs'[j].snapshot, reading)
  {
    var logs' := logs + [log];
    forall i, j | Adjacent(setup, logs', i, j, asset, metricName)
      ensures Differ(logs'[i].snapshot, logs'[j].snapshot, reading)
    {
      if j < |logs| {
        assert forall k :: i <= k <= j ==> logs'[k] == logs[k];
        assert Adjacent(setup, logs, i, j, asset, metricName);
      } else {
        assert forall k :: i < k < |logs| ==> logs'[k] == logs[k];
        assert IsLastOn(setup, logs, i, asset, metricName);
      }
    }
  }

  lemma ElsewhereKeepsLast<V(!new)>(setup: Setup, logs: seq<TriggerLog>, log: TriggerLog, snapshot: Snapshot,
                                    asset: string, metricName: string, reading: Signal -> V)
    requires !OnIt(setup, log, asset, metricName) && AwayFromLast(setup, logs, snapshot, asset, metricName, reading)
    ensures AwayFromLast(setup, logs + [log], snapshot, asset, metricName, reading)
  {
    var logs' := logs + [log];
    forall i | IsLastOn(setup, logs', i, asset, metricName) ensures Differ(logs'[i].snapshot, snapshot, reading) {
      assert i < |logs| && forall k :: i < k < |logs| ==> logs'[k] == logs[k];
      assert IsLastOn(setup, logs, i, asset, metricName);
    }
  }

  lemma TransitionFinish<V(!new)>(setup: Setup, s: State, step: Step, asset: string, metricName: string,
                                  reading: Signal -> V)
    requires Transitions(setup, s, asset, metricName, reading)
    requires Enabled(setup, s, step) && MetricSerial(setup, s, step, asset, metricName) && step.Finish?
    ensures Transitions(setup, Next(setup, s, step), asset, metricName, reading)
  {
    var s' := Next(setup, s, step);
    var pair := step.pair;
    if step.logged {
      var log := TriggerLog(step.logId, pair.triggerId, pair.asset, s.firing[pair].snapshot, step.now);
      assert OnIt(setup, log, asset, metricName) <==> Concerns(setup, pair, asset, metricName);
      AppendLog(setup, s.logs, log, asset, metricName, reading);
      hide AwayFromLast, Adjacent, Differ;
      forall p | p in s'.firing && Concerns(setup, p, asset, metricName)
        ensures AwayFromLast(setup, s'.logs, s'.firing[p].snapshot, asset, metricName, reading)
      {
        ElsewhereKeepsLast(setup, s.logs, log, s.firing[p].snapshot, asset, metricName, reading);
      }
    }
  }

  /**
   When every trigger on a metric fires only on a change and evaluations on
   (vehicle, metric) are serial with a strictly increasing clock, no two
   neighbouring logs of that vehicle and metric carry equal readings, whichever
   triggers wrote them.
  */
  lemma {:induction false} LogsAreTransitions<V(!new)>(setup: Setup, s: State, steps: seq<Step>, asset: string,
                                                       metricName: string, reading: Signal -> V)
    requires FiresOnChange(setup, metricName, reading) && Transitions(setup, s, asset, metricName, reading)
    requires Runs(setup, s, steps) && SerialRun(setup, s, steps, asset, metricName)
    ensures Transitions(setup, Run(setup, s, steps), asset, metricName, reading)
    decreases |steps|
  {
    if steps != [] {
      if steps[0].Finish? {
        TransitionFinish(setup, s, steps[0], asset, metricName, reading);
      } else {
        TransitionEvaluate(setup, s, steps[0], asset, metricName, reading);
      }
      LogsAreTransitions(setup, Next(setup, s, steps[0]), steps[1..], asset, metricName, reading);
    }
  }

  // ---- Conditions ----

  /**
   The snapshot met the trigger's condition: for an event after the pair's last
   log, for a signal after the metric's last log at some moment up to then.
  */
  ghost predicate MetCondition(setup: Setup, logs: seq<TriggerLog>, pair: Subscription, snapshot: Snapshot) {
    && pair.triggerId in setup.webhooks
    && var wh := setup.webhooks[pair.triggerId];
       if IsEventService(wh.trigger.service) then
         && snapshot.EventSnapshot?
         && exists own :: IsLatest(logs, {pair.triggerId}, pair.asset, own)
                          && EventHolds(setup.rt, wh.program, snapshot.event, own, true)
       else
         && snapshot.SignalSnapshot?
         && exists n: nat, onMetric, valueType ::
              SeenOnMetric(setup, logs, n, pair.asset, wh.trigger.metricName, onMetric)
              && SignalHolds(setup.rt, wh.program, snapshot.signal, valueType, onMetric, true)
  }

  /** What the lookup of the metric could answer when there were n logs. */
  ghost predicate SeenOnMetric(setup: Setup, logs: seq<TriggerLog>, n: nat, asset: string, metricName: string,
                               answer: Option<TriggerLog>) {
    n <= |logs| && IsLatestForMetric(Tables(setup, logs[..n]), asset, metricName, answer)
  }

  function PairOf(log: TriggerLog): Subscription { Subscription(log.asset, log.triggerId) }

  /** Every log met its trigger's condition when it was taken, and so did every firing under way. */
  ghost predicate ConditionsMet(setup: Setup, s: State) {
    && (forall i :: 0 <= i < |s.logs| ==> MetCondition(setup, s.logs[..i], PairOf(s.logs[i]), s.logs[i].snapshot))
    && (forall pair :: pair in s.firing ==> MetCondition(setup, s.logs, pair, s.firing[pair].snapshot))
  }

  lemma FiringMeets(setup: Setup, s: State, step: Step)
    requires Enabled(setup, s, step) && !step.Finish? && Decide(setup, step) == Ok(Fire)
    ensures var snapshot := if step.EvaluateSignal? then SignalSnapshot(step.sig) else EventSnapshot(step.ev);
            MetCondition(setup, s.logs, step.pair, snapshot)
  {
    var wh := setup.webhooks[step.pair.triggerId];
    hide CheckCooldown, IsLatest, IsLatestForMetric;
    if step.EvaluateSignal? {
      assert s.logs[..|s.logs|] == s.logs;
      assert SeenOnMetric(setup, s.logs, |s.logs|, step.pair.asset, wh.trigger.metricName, step.onMetric);
      assert SignalHolds(setup.rt, wh.program, step.sig, step.valueType, step.onMetric, true);
    } else {
      assert EventHolds(setup.rt, wh.program, step.ev, step.own, true);
    }
  }

  /** A log of another pair takes nothing from that. */
  lemma MetElsewhere(setup: Setup, logs: seq<TriggerLog>, log: TriggerLog, pair: Subscription, snapshot: Snapshot)
    requires MetCondition(setup, logs, pair, snapshot) && PairOf(log) != pair
    ensures MetCondition(setup, logs + [log], pair, snapshot)
  {
    var wh := setup.webhooks[pair.triggerId];
    if IsEventService(wh.trigger.service) {
      var own :| IsLatest(logs, {pair.triggerId}, pair.asset, own)
                 && EventHolds(setup.rt, wh.program, snapshot.event, own, true);
      hide EventHolds;
      assert IsLatest(logs + [log], {pair.triggerId}, pair.asset, own);
    } else {
      hide SignalHolds, IsLatestForMetric;
      var n: nat, onMetric, valueType :| SeenOnMetric(setup, logs, n, pair.asset, wh.trigger.metricName, onMetric)
                                    && SignalHolds(setup.rt, wh.program, snapshot.signal, valueType, onMetric, true);
      assert (logs + [log])[..n] == logs[..n];
      assert SeenOnMetric(setup, logs + [log], n, pair.asset, wh.trigger.metricName, onMetric);
    }
  }

  lemma ConditionsStep(setup: Setup, s: State, step: Step)
    requires ConditionsMet(setup, s) && Enabled(setup, s, step)
    ensures ConditionsMet(setup, Next(setup, s, step))
  {
    if !step.Finish? && Decide(setup, step) == Ok(Fire) { FiringMeets(setup, s, step); }
    hide MetCondition, Decide, IsLatest, IsLatestForMetric;
    if step.Finish? && step.logged {
      var log := TriggerLog(step.logId, step.pair.triggerId, step.pair.asset, s.firing[step.pair].snapshot, step.now);
      var logs' := s.logs + [log];
      assert PairOf(log) == step.pair && logs'[..|s.logs|] == s.logs;
      forall i | 0 <= i < |s.logs| ensures logs'[..i] == s.logs[..i] && logs'[i] == s.logs[i] {}
      forall pair | pair in s.firing && pair != step.pair { MetElsewhere(setup, s.logs, log, pair, s.firing[pair].snapshot); }
    }
  }

  /**
   In every run every log is of a signal or event that met its trigger's
   condition: an event after the previous log of its pair, a signal after a
   reading that was the metric's last when it was evaluated.
  */
  lemma {:induction false} LogsMetConditions(setup: Setup, s: State, steps: seq<Step>)
    requires ConditionsMet(setup, s) && Runs(setup, s, steps)
    ensures ConditionsMet(setup, Run(setup, s, steps))
    decreases |steps|
  {
    if steps != [] {
      ConditionsStep(setup, s, steps[0]);
      LogsMetConditions(setup, Next(setup, s, steps[0]), steps[1..]);
    }
  }

  /** The log of a finished firing is the one the listener writes for its delivery; one that is not logged leaves none. */
  lemma FinishLogsDelivery(setup: Setup, s: State, d: D.Delivery)
    requires d.trigger.id in setup.webhooks && Subscription(d.payload.asset, d.trigger.id) in s.firing
    requires s.firing[Subscription(d.payload.asset, d.trigger.id)].snapshot == d.snapshot
    ensures Next(setup, s, Finish(Subscription(d.payload.asset, d.trigger.id), d.now, d.payload.id, true)).logs
            == s.logs + [D.LogOf(d)]
    ensures Next(setup, s, Finish(Subscription(d.payload.asset, d.trigger.id), d.now, d.payload.id, false)).logs == s.logs
  {
  }
}
