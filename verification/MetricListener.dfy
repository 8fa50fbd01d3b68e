/**
 The metric listener: a message's signals or events are matched against the
 cache, every matching trigger is evaluated whatever happens to the others,
 and what fires is sent (internal/controllers/metriclistener).
*/
module MetricListener {
  import opened Wrappers
  import opened Signals
  import opened Domain
  import opened Store
  import opened Repository
  import opened WebhookIndex
  import opened WebhookCache
  import opened Evaluator
  import opened Deliveries

  /** What lies outside the service while one webhook is processed: access answers, driver faults, the send, the clock. */
  datatype Outside = Outside(
    permitted: (string, string, seq<string>) -> Result<bool, Error>,
    ownFault: bool,
    metricFault: bool,
    now: int,
    deleteFault: bool,
    payloadId: string,
    sending: Sending,
    incrementFault: bool,
    resetFault: bool,
    logFault: bool,
    sentAt: int)

  datatype Evaluation = Evaluation(webhook: Webhook, asset: string, metric: Snapshot)

  /** The cache key of a received metric: service and metric name. */
  function MetricKey(metric: Snapshot): (string, string) {
    match metric
    case SignalSnapshot(sig) => (SERVICE_SIGNAL, VSS_PREFIX + sig.name)
    case EventSnapshot(ev) => (SERVICE_EVENT, ev.name)
    case MalformedSnapshot => ("", "")
  }

  /** Permissions a delivery needs. */
  function Needs(schema: Schema, metric: Snapshot): seq<string> {
    if metric.SignalSnapshot? then DeliveryDefinition(schema, metric.signal).permissions else DEFAULT_PERMISSIONS
  }

  /** A read of the log table as the evaluator sees it. */
  function Read(fault: bool, answer: Option<TriggerLog>): Result<Option<TriggerLog>, Error> {
    if fault then Err(Internal) else Ok(answer)
  }

  function Evaluate(env: Env, rt: Runtime, wh: Webhook, asset: string, metric: Snapshot, o: Outside,
                    own: Result<Option<TriggerLog>, Error>, onMetric: Result<Option<TriggerLog>, Error>)
    : Result<Verdict, Error>
  {
    var granted := o.permitted(asset, wh.trigger.owner, Needs(env.schema, metric));
    match metric
    case SignalSnapshot(sig) =>
      EvaluateSignalTrigger(rt, wh.trigger, wh.program, sig, DeliveryDefinition(env.schema, sig).valueType,
                            granted, own, onMetric, o.now)
    case EventSnapshot(ev) => EvaluateEventTrigger(rt, wh.trigger, wh.program, ev, granted, own, o.now)
    case MalformedSnapshot => Err(Internal)
  }

  /** The verdict is the evaluator's on latest logs of this database. */
  ghost predicate Judged(env: Env, rt: Runtime, db: Db, e: Evaluation, o: Outside, verdict: Result<Verdict, Error>) {
    exists own, onMetric ::
      && IsLatest(db.logs, {e.webhook.trigger.id}, e.asset, own)
      && IsLatestForMetric(db, e.asset, e.webhook.trigger.metricName, onMetric)
      && verdict == Evaluate(env, rt, e.webhook, e.asset, e.metric, o, Read(o.ownFault, own), Read(o.metricFault, onMetric))
  }

  /** What the token exchange answers for the webhook's owner and the permissions its metric needs. */
  function Granted(env: Env, e: Evaluation, o: Outside): Result<bool, Error> {
    o.permitted(e.asset, e.webhook.trigger.owner, Needs(env.schema, e.metric))
  }

  /** Each verdict by its own guards, on these two log lookups. */
  ghost predicate Decided(env: Env, rt: Runtime, e: Evaluation, o: Outside, own: Option<TriggerLog>,
                          onMetric: Option<TriggerLog>, verdict: Result<Verdict, Error>) {
    var wh := e.webhook;
    var rested := Rested(wh.trigger, own, o.now);
    && (verdict == Ok(PermissionDenied) <==> Granted(env, e, o) == Ok(false))
    && (verdict == Ok(CoolDownNotMet) <==> Granted(env, e, o) == Ok(true) && !o.ownFault && !rested)
    && (verdict == Ok(Fire) <==>
          Granted(env, e, o) == Ok(true) && !o.ownFault && rested && Holds(env, rt, e, o, own, onMetric, true))
    && (verdict == Ok(ConditionNotMet) <==>
          Granted(env, e, o) == Ok(true) && !o.ownFault && rested && Holds(env, rt, e, o, own, onMetric, false))
  }

  /** The condition was evaluated on the previous value, to this truth. */
  ghost predicate Holds(env: Env, rt: Runtime, e: Evaluation, o: Outside, own: Option<TriggerLog>, onMetric: Option<TriggerLog>,
                        met: bool) {
    match e.metric
    case SignalSnapshot(sig) =>
      && !o.metricFault
      && SignalHolds(rt, e.webhook.program, sig, DeliveryDefinition(env.schema, sig).valueType, onMetric, met)
    case EventSnapshot(ev) => EventHolds(rt, e.webhook.program, ev, own, met)
    case MalformedSnapshot => false
  }

  /** A verdict on a webhook whose cooldown fits its column is decided by latest logs of the pair and of the metric. */
  lemma JudgedIsDecided(env: Env, rt: Runtime, db: Db, e: Evaluation, o: Outside, verdict: Result<Verdict, Error>)
    requires Judged(env, rt, db, e, o, verdict) && !e.metric.MalformedSnapshot? && 0 <= e.webhook.trigger.cooldown <= INT4_MAX
    ensures exists own, onMetric ::
              && IsLatest(db.logs, {e.webhook.trigger.id}, e.asset, own)
              && IsLatestForMetric(db, e.asset, e.webhook.trigger.metricName, onMetric)
              && Decided(env, rt, e, o, own, onMetric, verdict)
  {
    hide IsLatest, IsLatestForMetric;
    var own, onMetric :|
      && IsLatest(db.logs, {e.webhook.trigger.id}, e.asset, own)
      && IsLatestForMetric(db, e.asset, e.webhook.trigger.metricName, onMetric)
      && verdict == Evaluate(env, rt, e.webhook, e.asset, e.metric, o, Read(o.ownFault, own), Read(o.metricFault, onMetric));
    EvaluatesAsDecided(env, rt, e, o, own, onMetric);
    hide Decided, Evaluate;
  }

  lemma EvaluatesAsDecided(env: Env, rt: Runtime, e: Evaluation, o: Outside, own: Option<TriggerLog>,
                           onMetric: Option<TriggerLog>)
    requires !e.metric.MalformedSnapshot? && 0 <= e.webhook.trigger.cooldown <= INT4_MAX
    ensures Decided(env, rt, e, o, own, onMetric, Evaluate(env, rt, e.webhook, e.asset, e.metric, o, Read(o.ownFault, own),
                                                           Read(o.metricFault, onMetric)))
  {
    var t, program := e.webhook.trigger, e.webhook.program;
    var ownRead, metricRead := Read(o.ownFault, own), Read(o.metricFault, onMetric);
    var granted := Granted(env, e, o);
    hide SignalHolds, EventHolds, Rested, EvaluateSignalTrigger, EvaluateEventTrigger;
    match e.metric
    case SignalSnapshot(sig) =>
      var valueType := DeliveryDefinition(env.schema, sig).valueType;
      SignalVerdicts(rt, t, program, sig, valueType, granted, ownRead, metricRead, o.now, true);
      SignalVerdicts(rt, t, program, sig, valueType, granted, ownRead, metricRead, o.now, false);
    case EventSnapshot(ev) =>
      EventVerdicts(rt, t, program, ev, granted, ownRead, o.now, true);
      EventVerdicts(rt, t, program, ev, granted, ownRead, o.now, false);
  }

  /** A signal needs what the schema asks for it, an event both kinds of history: what subscribing needed. */
  lemma NeedsAsSubscribed(schema: Schema, metric: Snapshot)
    requires !metric.MalformedSnapshot?
    ensures Needs(schema, metric) == SubscribePermissions(schema, metric.SignalSnapshot?, MetricKey(metric).1)
    ensures metric.SignalSnapshot? && metric.signal.name in schema ==>
              Needs(schema, metric) == schema[metric.signal.name].permissions
    ensures metric.EventSnapshot? ==>
              Needs(schema, metric) == ["privilege:GetNonLocationHistory", "privilege:GetLocationHistory"]
  {
    if metric.SignalSnapshot? { SubscribeAndDeliveryAgree(schema, MetricKey(metric).1, metric.signal); }
  }

  function DeliveryOf(e: Evaluation, o: Outside): Delivery {
    Delivery(e.webhook.trigger, Payload(o.payloadId, e.asset), e.metric, o.sending, o.incrementFault, o.resetFault,
             o.logFault, o.sentAt)
  }

  // ---- What processing webhooks one after another comes to ----

  /** A processed webhook: what was evaluated, what the outside did, and the verdict. */
  datatype Processed = Processed(e: Evaluation, o: Outside, verdict: Result<Verdict, Error>)

  /** The tables, the actions so far, the refreshes asked for, and the cache's flag. */
  datatype Moment = Moment(db: Db, trace: seq<Action>, requests: nat, schedule: bool)

  function PairOf(e: Evaluation): Subscription { Subscription(e.asset, e.webhook.trigger.id) }

  /** The token exchange refuses, and nothing stands in the way of the delete. */
  predicate Refused(env: Env, e: Evaluation, o: Outside) {
    Granted(env, e, o) == Ok(false) && !o.deleteFault && e.asset != "" && e.webhook.trigger.id != ""
  }

  lemma RefusedIsDenied(env: Env, rt: Runtime, e: Evaluation, o: Outside, own: Result<Option<TriggerLog>, Error>,
                        onMetric: Result<Option<TriggerLog>, Error>)
    ensures Evaluate(env, rt, e.webhook, e.asset, e.metric, o, own, onMetric) == Ok(PermissionDenied)
            <==> !e.metric.MalformedSnapshot? && Granted(env, e, o) == Ok(false)
  {
  }

  ghost predicate AsOutside(done: seq<Processed>, outside: string -> Outside) {
    forall k :: 0 <= k < |done| ==> done[k].o == outside(done[k].e.webhook.trigger.id)
  }

  /** A fired webhook that passes the circuit check: what its outcome leaves in its row and in the logs when no write fails. */
  lemma FiredWritesExactly(max: int, db: Db, history: seq<Op>, e: Evaluation, o: Outside)
    requires Invariant(db, history, max) && e.webhook.trigger.id in db.triggers
    requires e.webhook.trigger.status == Enabled && e.webhook.trigger.failures < max
    ensures var t := e.webhook.trigger;
            var row, after := db.triggers[t.id], ApplyAll(db, Writes(max, DeliveryOf(e, o)), max);
            && (o.sending == OtherError ==> after == db)
            && (o.sending == EndpointFailure && !o.incrementFault && t.owner == row.owner && "" !in {t.id, t.owner}
                && row.status != Deleted && row.failures < INT4_MAX ==>
                  after == db.(triggers := db.triggers[t.id := row.(
                    failures := row.failures + 1, status := if row.failures + 1 >= max then Failed else row.status)]))
            && (o.sending == Delivered && !o.resetFault && row.failures > 0 ==>
                  after.triggers == db.triggers[t.id := row.(
                    failures := 0, status := if row.status == Failed then Enabled else row.status)])
            && (o.sending == Delivered && !o.logFault && "" !in {o.payloadId, e.asset, t.id}
                && (forall i :: 0 <= i < |db.logs| ==> db.logs[i].id != o.payloadId) ==>
                  after.logs == db.logs + [TriggerLog(o.payloadId, t.id, e.asset, e.metric, o.sentAt)])
  {
    WritesExactly(max, db, history, DeliveryOf(e, o));
    assert RowOk(db.triggers[e.webhook.trigger.id], e.webhook.trigger.id, history, max);
    hide ApplyAll, Writes, Invariant;
  }

  /** The webhook was denied and its pair could be deleted. */
  predicate Unsubscribes(p: Processed) {
    p.verdict == Ok(PermissionDenied) && !p.o.deleteFault && p.e.asset != "" && p.e.webhook.trigger.id != ""
  }

  function Onto(max: int, m: Moment, p: Processed): Moment {
    var d := DeliveryOf(p.e, p.o);
    if p.verdict == Ok(Fire) then m.(db := ApplyAll(m.db, Writes(max, d), max), trace := m.trace + Actions(max, d))
    else if Unsubscribes(p) then
      m.(db := m.db.(subs := m.db.subs - {PairOf(p.e)}), requests := m.requests + 1, schedule := true)
    else m
  }

  function Later(max: int, m: Moment, done: seq<Processed>): Moment {
    if done == [] then m else Onto(max, Later(max, m, done[..|done| - 1]), done[|done| - 1])
  }

  /** Each verdict is the evaluator's on the tables of its turn. */
  ghost predicate AllJudged(env: Env, rt: Runtime, max: int, m: Moment, done: seq<Processed>) {
    forall k :: 0 <= k < |done| ==> JudgedAt(env, rt, max, m, done, k)
  }

  ghost predicate JudgedAt(env: Env, rt: Runtime, max: int, m: Moment, done: seq<Processed>, k: nat)
    requires k < |done|
  {
    Judged(env, rt, Later(max, m, done[..k]).db, done[k].e, done[k].o, done[k].verdict)
  }

  function Evaluations(done: seq<Processed>): multiset<Evaluation> {
    if done == [] then multiset{} else Evaluations(done[..|done| - 1]) + multiset{done[|done| - 1].e}
  }

  lemma OneMore(env: Env, rt: Runtime, max: int, m: Moment, done: seq<Processed>, p: Processed)
    requires AllJudged(env, rt, max, m, done) && Judged(env, rt, Later(max, m, done).db, p.e, p.o, p.verdict)
    ensures AllJudged(env, rt, max, m, done + [p]) && Later(max, m, done + [p]) == Onto(max, Later(max, m, done), p)
    ensures Evaluations(done + [p]) == Evaluations(done) + multiset{p.e}
  {
    var all := done + [p];
    assert all[..|done|] == done;
    hide Judged, Onto;
    forall k | 0 <= k < |all| ensures JudgedAt(env, rt, max, m, all, k) {
      if k < |done| { assert JudgedAt(env, rt, max, m, done, k) && all[..k] == done[..k]; }
    }
  }

  lemma {:induction false} LaterOn(max: int, m: Moment, a: seq<Processed>, b: seq<Processed>)
    ensures Later(max, m, a + b) == Later(max, Later(max, m, a), b)
    ensures Evaluations(a + b) == Evaluations(a) + Evaluations(b)
  {
    if b == [] {
      assert a + b == a;
    } else {
      assert (a + b)[..|a + b| - 1] == a + b[..|b| - 1];
      hide Onto;
      LaterOn(max, m, a, b[..|b| - 1]);
    }
  }

  lemma JudgedOn(env: Env, rt: Runtime, max: int, m: Moment, a: seq<Processed>, b: seq<Processed>)
    requires AllJudged(env, rt, max, m, a) && AllJudged(env, rt, max, Later(max, m, a), b)
    ensures AllJudged(env, rt, max, m, a + b)
  {
    hide JudgedAt;
    forall k | 0 <= k < |a + b| ensures JudgedAt(env, rt, max, m, a + b, k) {
      if k < |a| { JudgedBefore(env, rt, max, m, a, b, k); } else { JudgedBehind(env, rt, max, m, a, b, k - |a|); }
    }
  }

  lemma JudgedBefore(env: Env, rt: Runtime, max: int, m: Moment, a: seq<Processed>, b: seq<Processed>, k: nat)
    requires k < |a| && JudgedAt(env, rt, max, m, a, k)
    ensures JudgedAt(env, rt, max, m, a + b, k)
  {
    assert (a + b)[..k] == a[..k];
    hide Judged, Later;
  }

  lemma JudgedBehind(env: Env, rt: Runtime, max: int, m: Moment, a: seq<Processed>, b: seq<Processed>, k: nat)
    requires k < |b| && JudgedAt(env, rt, max, Later(max, m, a), b, k)
    ensures JudgedAt(env, rt, max, m, a + b, |a| + k)
  {
    LaterOn(max, m, a, b[..k]);
    assert (a + b)[..|a| + k] == a + b[..k];
    hide Judged, Later;
  }

  /** The webhook was judged to fire, passes the circuit check, and this is its send. */
  predicate SendsAs(max: int, p: Processed, a: Action) {
    && p.verdict == Ok(Fire) && p.e.webhook.trigger.status == Enabled && p.e.webhook.trigger.failures < max
    && a == Sent(p.o.payloadId, p.e.webhook.trigger.id, p.o.sending)
  }

  /** Actions are only added, and a send is among the new ones exactly when a processed webhook made it. */
  lemma {:induction false} SendsExactly(max: int, m: Moment, done: seq<Processed>, a: Action)
    ensures m.trace <= Later(max, m, done).trace
    ensures a.Sent? && a in Later(max, m, done).trace[|m.trace|..]
            <==> exists k :: 0 <= k < |done| && SendsAs(max, done[k], a)
  {
    if done != [] {
      var n := |done| - 1;
      SendsExactly(max, m, done[..n], a);
      var before, p := Later(max, m, done[..n]), done[n];
      ActsExactly(max, DeliveryOf(p.e, p.o), a);
      var added := if p.verdict == Ok(Fire) then Actions(max, DeliveryOf(p.e, p.o)) else [];
      assert Later(max, m, done).trace == before.trace + added;
      assert Later(max, m, done).trace[|m.trace|..] == before.trace[|m.trace|..] + added;
      hide Later, Actions;
      assert (exists k :: 0 <= k < |done| && SendsAs(max, done[k], a))
        <==> SendsAs(max, p, a) || exists k :: 0 <= k < n && SendsAs(max, done[..n][k], a) by {
        if k :| 0 <= k < n && SendsAs(max, done[..n][k], a) { assert done[k] == done[..n][k]; }
        if k :| 0 <= k < |done| && SendsAs(max, done[k], a) { assert k < n ==> done[..n][k] == done[k]; }
      }
    }
  }

  /** The sends among the new actions are those of these webhooks, and no others. */
  ghost predicate SentBy(max: int, before: seq<Action>, after: seq<Action>, done: seq<Processed>) {
    && before <= after
    && forall a: Action :: (a.Sent? && a in after[|before|..]) <==> exists k :: 0 <= k < |done| && SendsAs(max, done[k], a)
  }

  lemma SendsAreTheirs(max: int, m: Moment, done: seq<Processed>)
    ensures SentBy(max, m.trace, Later(max, m, done).trace, done)
  {
    forall a { SendsExactly(max, m, done, a); }
    SendsExactly(max, m, done, ResetTried(""));
    hide Later, SendsAs;
  }

  lemma AfterDenies(max: int, m: Moment, p: Processed)
    ensures var m' := Onto(max, m, p);
            && m'.db.subs == (if Unsubscribes(p) then m.db.subs - {PairOf(p.e)} else m.db.subs)
            && m'.schedule == (m.schedule || Unsubscribes(p))
            && m'.requests == m.requests + if Unsubscribes(p) then 1 else 0
  {
    DeliveryKeepsSubs(max, m.db, DeliveryOf(p.e, p.o));
    hide ApplyAll, Writes, Actions;
  }

  ghost predicate Loses(done: seq<Processed>, sub: Subscription) {
    exists k :: 0 <= k < |done| && Unsubscribes(done[k]) && PairOf(done[k].e) == sub
  }

  function Denials(done: seq<Processed>): set<nat> { set k: nat | k < |done| && Unsubscribes(done[k]) }

  lemma DenialsMore(done: seq<Processed>, sub: Subscription)
    requires done != []
    ensures var n := |done| - 1;
            && |Denials(done)| == |Denials(done[..n])| + (if Unsubscribes(done[n]) then 1 else 0)
            && (Loses(done, sub) <==> Loses(done[..n], sub) || (Unsubscribes(done[n]) && PairOf(done[n].e) == sub))
  {
    var n := |done| - 1;
    hide Unsubscribes;
    assert n !in Denials(done[..n]);
    assert Denials(done) == if Unsubscribes(done[n]) then Denials(done[..n]) + {n} else Denials(done[..n]);
    if k :| 0 <= k < n && Unsubscribes(done[..n][k]) && PairOf(done[..n][k].e) == sub { assert done[k] == done[..n][k]; }
    if k :| 0 <= k < |done| && Unsubscribes(done[k]) && PairOf(done[k].e) == sub { assert k < n ==> done[..n][k] == done[k]; }
  }

  /** Exactly the denied pairs that could be deleted go, each asking for a refresh, which sets the flag. */
  lemma {:induction false} DenialsExactly(max: int, m: Moment, done: seq<Processed>, sub: Subscription)
    ensures var end := Later(max, m, done);
            && (sub in end.db.subs <==> sub in m.db.subs && !Loses(done, sub))
            && (end.schedule <==> m.schedule || |Denials(done)| > 0)
            && end.requests == m.requests + |Denials(done)|
  {
    if done != [] {
      var n := |done| - 1;
      AfterDenies(max, Later(max, m, done[..n]), done[n]);
      DenialsMore(done, sub);
      hide Denials, Loses, Unsubscribes, Onto;
      DenialsExactly(max, m, done[..n], sub);
    }
  }

  // ---- What a message is due ----

  /** One evaluation per webhook. */
  function Each(webhooks: seq<Webhook>, asset: string, metric: Snapshot): multiset<Evaluation> {
    if webhooks == [] then multiset{}
    else Each(webhooks[1..], asset, metric) + multiset{Evaluation(webhooks[0], asset, metric)}
  }

  lemma {:induction false} EachSplits(a: seq<Webhook>, b: seq<Webhook>, asset: string, metric: Snapshot)
    ensures Each(a + b, asset, metric) == Each(a, asset, metric) + Each(b, asset, metric)
  {
    if a == [] {
      assert a + b == b;
    } else {
      assert (a + b)[1..] == a[1..] + b;
      EachSplits(a[1..], b, asset, metric);
    }
  }

  lemma {:induction false} EachHas(webhooks: seq<Webhook>, asset: string, metric: Snapshot, wh: Webhook)
    ensures Each(webhooks, asset, metric)[Evaluation(wh, asset, metric)] > 0 <==> wh in webhooks
  {
    if webhooks != [] {
      EachHas(webhooks[1..], asset, metric, wh);
      assert webhooks == [webhooks[0]] + webhooks[1..];
    }
  }

  lemma {:induction false} WasProcessed(done: seq<Processed>, e: Evaluation)
    ensures Evaluations(done)[e] > 0 <==> exists k :: 0 <= k < |done| && done[k].e == e
  {
    if done != [] {
      var n := |done| - 1;
      WasProcessed(done[..n], e);
      if k :| 0 <= k < n && done[..n][k].e == e { assert done[k].e == e; }
      if k :| 0 <= k < |done| && done[k].e == e { assert k < n ==> done[..n][k].e == e; }
    }
  }

  /** Among the webhooks processed once each, a refused one has lost its pair and set the flag. */
  lemma RefusedLeaves(env: Env, rt: Runtime, max: int, m: Moment, done: seq<Processed>, webhooks: seq<Webhook>, asset: string,
                      metric: Snapshot, outside: string -> Outside, wh: Webhook)
    requires AllJudged(env, rt, max, m, done) && AsOutside(done, outside) && Evaluations(done) == Each(webhooks, asset, metric)
    requires wh in webhooks && !metric.MalformedSnapshot?
    requires Refused(env, Evaluation(wh, asset, metric), outside(wh.trigger.id))
    ensures Subscription(asset, wh.trigger.id) !in Later(max, m, done).db.subs && Later(max, m, done).schedule
  {
    var e := Evaluation(wh, asset, metric);
    EachHas(webhooks, asset, metric, wh);
    WasProcessed(done, e);
    hide Evaluations, Each, Evaluate, Granted, Later, IsLatest, IsLatestForMetric;
    var k :| 0 <= k < |done| && done[k].e == e;
    assert JudgedAt(env, rt, max, m, done, k);
    var own, onMetric :|
      done[k].verdict == Evaluate(env, rt, wh, asset, metric, done[k].o, Read(done[k].o.ownFault, own),
                                  Read(done[k].o.metricFault, onMetric));
    RefusedIsDenied(env, rt, e, done[k].o, Read(done[k].o.ownFault, own), Read(done[k].o.metricFault, onMetric));
    assert Unsubscribes(done[k]) && Loses(done, Subscription(asset, wh.trigger.id));
    DenialsExactly(max, m, done, Subscription(asset, wh.trigger.id));
    assert k in Denials(done);
  }

  /** Every refused webhook of these has lost its pair, and a refresh is on its way. */
  ghost predicate RefusedGone(env: Env, webhooks: seq<Webhook>, asset: string, metric: Snapshot, outside: string -> Outside,
                              subs: set<Subscription>, schedule: bool) {
    forall wh :: wh in webhooks && !metric.MalformedSnapshot?
                 && Refused(env, Evaluation(wh, asset, metric), outside(wh.trigger.id))
                 ==> Subscription(asset, wh.trigger.id) !in subs && schedule
  }

  lemma RefusedAreGone(env: Env, rt: Runtime, max: int, m: Moment, done: seq<Processed>, webhooks: seq<Webhook>, asset: string,
                       metric: Snapshot, outside: string -> Outside)
    requires AllJudged(env, rt, max, m, done) && AsOutside(done, outside) && Evaluations(done) == Each(webhooks, asset, metric)
    ensures RefusedGone(env, webhooks, asset, metric, outside, Later(max, m, done).db.subs, Later(max, m, done).schedule)
  {
    hide Later, AllJudged, Evaluations, Each, Refused;
    forall wh | wh in webhooks && !metric.MalformedSnapshot?
                && Refused(env, Evaluation(wh, asset, metric), outside(wh.trigger.id))
      ensures Subscription(asset, wh.trigger.id) !in Later(max, m, done).db.subs && Later(max, m, done).schedule
    {
      RefusedLeaves(env, rt, max, m, done, webhooks, asset, metric, outside, wh);
    }
  }

  /** Since the earlier moment deliveries and unsubscriptions went on, and nothing else. */
  ghost predicate Grew(m: Moment, m': Moment) {
    m.trace <= m'.trace && Advanced(m.db, |m.trace|, m'.db, m'.trace)
  }

  lemma GrewOn(a: Moment, b: Moment, c: Moment)
    requires Grew(a, b) && Grew(b, c)
    ensures Grew(a, c) && c.db.subs <= b.db.subs
  {
    AdvancedOn(a.db, |a.trace|, b.db, b.trace, c.db, c.trace);
  }

  /** One evaluation for each webhook that is no longer to come, under its own outside; only these pairs can be gone. */
  ghost predicate Fanned(left: seq<Webhook>, all: seq<Webhook>, asset: string, metric: Snapshot, outside: string -> Outside,
                         before: set<Subscription>, now: set<Subscription>, done: seq<Processed>) {
    && Pairs(asset, left) <= Pairs(asset, all) && before - now <= Pairs(asset, all) && AsOutside(done, outside)
    && Evaluations(done) + Each(left, asset, metric) == Each(all, asset, metric)
  }

  lemma MatchedIsLookup(index: Index, asset: string, metric: Snapshot)
    ensures Matched(index, asset, metric) == Lookup(index, asset, MetricKey(metric).0, MetricKey(metric).1)
  {
  }

  lemma FannedFirst(all: seq<Webhook>, asset: string, metric: Snapshot, outside: string -> Outside, subs: set<Subscription>)
    ensures Fanned(all, all, asset, metric, outside, subs, subs, [])
  {
  }

  lemma FannedNext(left: seq<Webhook>, i: nat, all: seq<Webhook>, asset: string, metric: Snapshot, outside: string -> Outside,
                   before: set<Subscription>, mid: set<Subscription>, now: set<Subscription>, done: seq<Processed>,
                   p: Processed)
    requires i < |left| && Fanned(left, all, asset, metric, outside, before, mid, done)
    requires p.e == Evaluation(left[i], asset, metric) && p.o == outside(left[i].trigger.id) && mid - now <= {PairOf(p.e)}
    requires Evaluations(done + [p]) == Evaluations(done) + multiset{p.e}
    ensures Fanned(left[..i] + left[i + 1..], all, asset, metric, outside, before, now, done + [p])
  {
    EachWithout(left, i, asset, metric);
    PairsWithout(asset, left, i);
    AsOutsideMore(done, outside, p);
    hide Each, Evaluations, Pairs, AsOutside;
    var rest := left[..i] + left[i + 1..];
    Regroup(Evaluations(done), multiset{p.e}, Each(rest, asset, metric));
    assert PairOf(p.e) in Pairs(asset, all);
    SetsShrink(before, mid, now, Pairs(asset, all));
  }

  lemma AsOutsideMore(done: seq<Processed>, outside: string -> Outside, p: Processed)
    requires AsOutside(done, outside) && p.o == outside(p.e.webhook.trigger.id)
    ensures AsOutside(done + [p], outside)
  {
  }

  lemma Regroup<T>(a: multiset<T>, b: multiset<T>, c: multiset<T>)
    ensures a + b + c == a + (c + b)
  {
  }

  lemma SetsShrink<T>(before: set<T>, mid: set<T>, now: set<T>, some: set<T>)
    requires before - mid <= some && mid - now <= some
    ensures before - now <= some
  {
    assert before - now <= (before - mid) + (mid - now);
  }

  lemma FannedLast(all: seq<Webhook>, asset: string, metric: Snapshot, outside: string -> Outside,
                   before: set<Subscription>, now: set<Subscription>, done: seq<Processed>)
    requires Fanned([], all, asset, metric, outside, before, now, done)
    ensures Evaluations(done) == Each(all, asset, metric) && AsOutside(done, outside) && before - now <= Pairs(asset, all)
  {
  }

  lemma EachWithout(webhooks: seq<Webhook>, i: nat, asset: string, metric: Snapshot)
    requires i < |webhooks|
    ensures Each(webhooks, asset, metric)
              == Each(webhooks[..i] + webhooks[i + 1..], asset, metric) + multiset{Evaluation(webhooks[i], asset, metric)}
  {
    assert webhooks == webhooks[..i] + webhooks[i..];
    EachSplits(webhooks[..i], webhooks[i..], asset, metric);
    EachSplits(webhooks[..i], webhooks[i + 1..], asset, metric);
  }

  lemma {:induction false} EachCounts(webhooks: seq<Webhook>, asset: string, metric: Snapshot, wh: Webhook)
    requires DistinctIds(webhooks)
    ensures Each(webhooks, asset, metric)[Evaluation(wh, asset, metric)] == if wh in webhooks then 1 else 0
  {
    if webhooks != [] {
      EachCounts(webhooks[1..], asset, metric, wh);
    }
  }

  function Matched(index: Index, asset: string, metric: Snapshot): seq<Webhook> {
    Lookup(index, asset, MetricKey(metric).0, MetricKey(metric).1)
  }

  /** A cache that is the index of a database has each of its matching triggers evaluated once, and no other. */
  lemma MatchingTriggersOnce(env: Env, db: Db, index: Index, lost: set<string>, asset: string, metric: Snapshot, wh: Webhook)
    requires IsIndexOf(env, db, index, lost)
    ensures Each(Matched(index, asset, metric), asset, metric)[Evaluation(wh, asset, metric)]
              == if Offered(env, db, asset, MetricKey(metric).0, MetricKey(metric).1, wh) && wh.trigger.id !in lost
                 then 1 else 0
  {
    var key := MetricKey(metric);
    assert ColonFree(key.0);
    assert LookupIsJoin(env, db, index, lost, asset, key.0, key.1);
    EachCounts(Matched(index, asset, metric), asset, metric, wh);
  }

  /** What a metric matches: subscribed enabled triggers of its own service and name, compiled, and nothing else. */
  lemma MatchesExactly(env: Env, db: Db, index: Index, asset: string, metric: Snapshot, wh: Webhook)
    requires IsIndexOf(env, db, index, {}) && !metric.MalformedSnapshot?
    ensures var t := wh.trigger;
            wh in Matched(index, asset, metric) <==>
              && Subscription(asset, t.id) in db.subs && t.id != "" && t.id in db.triggers && db.triggers[t.id] == t
              && t.status == Enabled
              && (if metric.SignalSnapshot? then t.service == "signals" && t.metricName == "vss." + metric.signal.name
                  else t.service == "events" && t.metricName == metric.event.name)
              && PrepareCondition(env, t.service, t.condition, BuilderValueType(env, t.service, t.metricName))
                 == Some(wh.program)
  {
    var key := MetricKey(metric);
    assert ColonFree(key.0);
    assert LookupIsJoin(env, db, index, {}, asset, key.0, key.1);
    hide PrepareCondition, BuilderValueType, Lookup;
  }

  /** The pairs of this asset and these webhooks' triggers. */
  function Pairs(asset: string, webhooks: seq<Webhook>): set<Subscription> {
    set i | 0 <= i < |webhooks| :: Subscription(asset, webhooks[i].trigger.id)
  }

  lemma PairsWithout(asset: string, webhooks: seq<Webhook>, i: nat)
    requires i < |webhooks|
    ensures Subscription(asset, webhooks[i].trigger.id) in Pairs(asset, webhooks)
    ensures Pairs(asset, webhooks[..i] + webhooks[i + 1..]) <= Pairs(asset, webhooks)
  {
    var rest := webhooks[..i] + webhooks[i + 1..];
    forall k | 0 <= k < |rest| ensures Subscription(asset, rest[k].trigger.id) in Pairs(asset, webhooks) {
      assert rest[k] == webhooks[if k < i then k else k + 1];
    }
  }

  /** An unpacked signal or event: `asset` is None when its subject is no asset DID, `marshals` whether it encodes. */
  datatype Part = Part(metric: Snapshot, asset: Option<string>, marshals: bool)

  predicate Usable(part: Part) { part.marshals && part.asset.Some? }

  function DueFor(index: Index, part: Part): multiset<Evaluation> {
    if Usable(part) then Each(Matched(index, part.asset.value, part.metric), part.asset.value, part.metric) else multiset{}
  }

  function Due(index: Index, parts: seq<Part>): multiset<Evaluation> {
    if parts == [] then multiset{}
    else Due(index, parts[..|parts| - 1]) + DueFor(index, parts[|parts| - 1])
  }

  function Unusable(parts: seq<Part>): nat {
    if parts == [] then 0
    else Unusable(parts[..|parts| - 1]) + if Usable(parts[|parts| - 1]) then 0 else 1
  }

  lemma OneMorePart(index: Index, parts: seq<Part>, i: nat)
    requires i < |parts|
    ensures Due(index, parts[..i + 1]) == Due(index, parts[..i]) + DueFor(index, parts[i])
    ensures Unusable(parts[..i + 1]) == Unusable(parts[..i]) + if Usable(parts[i]) then 0 else 1
  {
    assert parts[..i + 1][..i] == parts[..i];
  }

  /** The parts that are missed are those that do not encode or name no asset. */
  lemma {:induction false} UnusableCounts(parts: seq<Part>)
    ensures Unusable(parts) == |set i | 0 <= i < |parts| && !(parts[i].marshals && parts[i].asset.Some?)|
  {
    var bad := set i | 0 <= i < |parts| && !(parts[i].marshals && parts[i].asset.Some?);
    if parts == [] {
      assert bad == {};
    } else {
      var n := |parts| - 1;
      UnusableCounts(parts[..n]);
      var earlier := set i | 0 <= i < n && !(parts[..n][i].marshals && parts[..n][i].asset.Some?);
      assert bad == if parts[n].marshals && parts[n].asset.Some? then earlier else earlier + {n};
    }
  }

  function Flat(runs: seq<seq<Processed>>): seq<Processed> {
    if runs == [] then [] else Flat(runs[..|runs| - 1]) + runs[|runs| - 1]
  }

  /**
   A part that encodes and names an asset has each matching webhook processed
   once, and its refused ones have left; any other part has none.
  */
  ghost predicate Handled(env: Env, index: Index, part: Part, outside: string -> Outside, subs: set<Subscription>,
                          schedule: bool, done: seq<Processed>) {
    && AsOutside(done, outside)
    && if part.marshals && part.asset.Some? then
         var webhooks := Matched(index, part.asset.value, part.metric);
         && Evaluations(done) == Each(webhooks, part.asset.value, part.metric)
         && RefusedGone(env, webhooks, part.asset.value, part.metric, outside, subs, schedule)
       else
         done == []
  }

  ghost predicate AllHandled(env: Env, index: Index, parts: seq<Part>, outside: nat -> string -> Outside,
                             subs: set<Subscription>, schedule: bool, runs: seq<seq<Processed>>) {
    && |runs| <= |parts|
    && forall k :: 0 <= k < |runs| ==> Handled(env, index, parts[k], outside(k), subs, schedule, runs[k])
  }

  lemma HandledIsDue(env: Env, index: Index, part: Part, outside: string -> Outside, subs: set<Subscription>, schedule: bool,
                     done: seq<Processed>)
    requires Handled(env, index, part, outside, subs, schedule, done)
    ensures Evaluations(done) == DueFor(index, part)
  {
  }

  /** Pairs that left stay away while only subscriptions are removed. */
  lemma HandledStays(env: Env, index: Index, part: Part, outside: string -> Outside, m: Moment, m': Moment,
                     done: seq<Processed>)
    requires Handled(env, index, part, outside, m.db.subs, m.schedule, done)
    requires m'.db.subs <= m.db.subs && (m.schedule ==> m'.schedule)
    ensures Handled(env, index, part, outside, m'.db.subs, m'.schedule, done)
  {
    hide Refused, Matched, Evaluations, Each;
  }

  lemma HandledMore(env: Env, index: Index, parts: seq<Part>, outside: nat -> string -> Outside, m: Moment, m': Moment,
                    runs: seq<seq<Processed>>, done: seq<Processed>)
    requires |runs| < |parts| && AllHandled(env, index, parts, outside, m.db.subs, m.schedule, runs)
    requires Handled(env, index, parts[|runs|], outside(|runs|), m'.db.subs, m'.schedule, done)
    requires m'.db.subs <= m.db.subs && (m.schedule ==> m'.schedule)
    ensures AllHandled(env, index, parts, outside, m'.db.subs, m'.schedule, runs + [done])
  {
    hide Handled;
    forall k | 0 <= k < |runs| { HandledStays(env, index, parts[k], outside(k), m, m', runs[k]); }
  }

  /** The first i parts are handled, and what was processed for them accounts for everything that has changed. */
  ghost predicate PartsDone(env: Env, rt: Runtime, max: int, index: Index, parts: seq<Part>, i: nat,
                            outside: nat -> string -> Outside, start: Moment, now: Moment, runs: seq<seq<Processed>>)
    requires i <= |parts|
  {
    && |runs| == i && now == Later(max, start, Flat(runs)) && AllJudged(env, rt, max, start, Flat(runs)) && Grew(start, now)
    && Evaluations(Flat(runs)) == Due(index, parts[..i])
    && AllHandled(env, index, parts, outside, now.db.subs, now.schedule, runs)
  }

  lemma PartsNext(env: Env, rt: Runtime, max: int, index: Index, parts: seq<Part>, i: nat, outside: nat -> string -> Outside,
                  start: Moment, mid: Moment, now: Moment, runs: seq<seq<Processed>>, done: seq<Processed>)
    requires i < |parts| && PartsDone(env, rt, max, index, parts, i, outside, start, mid, runs)
    requires now == Later(max, mid, done) && AllJudged(env, rt, max, mid, done) && Grew(mid, now)
    requires Handled(env, index, parts[i], outside(i), now.db.subs, now.schedule, done) && (mid.schedule ==> now.schedule)
    ensures PartsDone(env, rt, max, index, parts, i + 1, outside, start, now, runs + [done])
  {
    hide Later, AllJudged, Evaluations, Due, DueFor, Handled, Advanced, Flat;
    OneMorePart(index, parts, i);
    GrewOn(start, mid, now);
    FlatMore(env, rt, max, start, runs, done);
    HandledIsDue(env, index, parts[i], outside(i), now.db.subs, now.schedule, done);
    HandledMore(env, index, parts, outside, mid, now, runs, done);
  }

  lemma FlatMore(env: Env, rt: Runtime, max: int, m: Moment, runs: seq<seq<Processed>>, done: seq<Processed>)
    requires AllJudged(env, rt, max, m, Flat(runs)) && AllJudged(env, rt, max, Later(max, m, Flat(runs)), done)
    ensures AllJudged(env, rt, max, m, Flat(runs + [done]))
    ensures Later(max, m, Flat(runs + [done])) == Later(max, Later(max, m, Flat(runs)), done)
    ensures Evaluations(Flat(runs + [done])) == Evaluations(Flat(runs)) + Evaluations(done)
  {
    assert (runs + [done])[..|runs|] == runs;
    LaterOn(max, m, Flat(runs), done);
    JudgedOn(env, rt, max, m, Flat(runs), done);
    hide AllJudged, Later, Evaluations;
  }

  /** A signal message names its vehicle once; each event names its own. */
  datatype SignalMessage = NoSignals | SignalMessage(subject: Option<string>, signals: seq<(Signal, bool)>)

  datatype EventMessage = NoEvents | EventMessage(events: seq<(Event, Option<string>, bool)>)

  function SignalParts(asset: string, signals: seq<(Signal, bool)>): seq<Part> {
    seq(|signals|, i requires 0 <= i < |signals| => Part(SignalSnapshot(signals[i].0), Some(asset), signals[i].1))
  }

  function EventParts(events: seq<(Event, Option<string>, bool)>): seq<Part> {
    seq(|events|, i requires 0 <= i < |events| => Part(EventSnapshot(events[i].0), events[i].1, events[i].2))
  }

  lemma SignalPartsAre(asset: string, signals: seq<(Signal, bool)>)
    ensures var parts := SignalParts(asset, signals);
            && |parts| == |signals|
            && (forall i :: 0 <= i < |signals| ==> parts[i] == Part(SignalSnapshot(signals[i].0), Some(asset), signals[i].1))
            && (set i | 0 <= i < |parts| && !(parts[i].marshals && parts[i].asset.Some?))
               == (set i | 0 <= i < |signals| && !signals[i].1)
  {
  }

  lemma EventPartsAre(events: seq<(Event, Option<string>, bool)>)
    ensures var parts := EventParts(events);
            && |parts| == |events|
            && (forall i :: 0 <= i < |events| ==> parts[i] == Part(EventSnapshot(events[i].0), events[i].1, events[i].2))
            && (set i | 0 <= i < |parts| && !(parts[i].marshals && parts[i].asset.Some?))
               == (set i | 0 <= i < |events| && !(events[i].2 && events[i].1.Some?))
  {
  }

  /** The value put in a signal payload, by the type the signal was evaluated with. */
  datatype MetricValue = NumberValue(number: real) | TextValue(text: string) | LocationValue(location: Location)

  function SignalPayloadValue(valueType: string, sig: Signal): Option<MetricValue> {
    if valueType == NUMBER_TYPE then Some(NumberValue(sig.number))
    else if valueType == STRING_TYPE then Some(TextValue(sig.text))
    else if valueType == LOCATION_TYPE then Some(LocationValue(sig.location))
    else None
  }

  /** Of a signal the schema does not name, the payload carries the location if there is one, else the text, else the number. */
  lemma UndefinedSignalPayload(schema: Schema, sig: Signal)
    requires sig.name !in schema
    ensures SignalPayloadValue(DeliveryDefinition(schema, sig).valueType, sig)
            == Some(if sig.location != Location(0.0, 0.0, 0.0) then LocationValue(sig.location)
                    else if sig.text != "" then TextValue(sig.text) else NumberValue(sig.number))
  {
  }

  /** A signal trigger that fires always gets its payload. */
  lemma FiredHasPayload(env: Env, rt: Runtime, db: Db, e: Evaluation, o: Outside)
    requires e.metric.SignalSnapshot? && Judged(env, rt, db, e, o, Ok(Fire))
    ensures SignalPayloadValue(DeliveryDefinition(env.schema, e.metric.signal).valueType, e.metric.signal).Some?
  {
  }

  class Listener {
    const cache: Cache
    const repo: TriggersRepo
    const runtime: Runtime
    const maxFailureCount: int
    ghost var trace: seq<Action>

    /** The parts fit together. */
    ghost predicate Wired()
      reads this, repo
    {
      repo.Valid() && cache.repo == repo && maxFailureCount == repo.max
    }

    /** And every delivery so far is accounted for. */
    ghost predicate Valid()
      reads this, repo
    {
      Wired() && AllBalanced(trace)
    }

    constructor (cache: Cache, runtime: Runtime, maxWebhookFailureCount: int)
      requires cache.repo.Valid() && cache.repo.max == ClampThreshold(maxWebhookFailureCount)
      ensures Valid() && this.cache == cache && trace == []
      ensures maxFailureCount >= 1 && (maxWebhookFailureCount >= 1 ==> maxFailureCount == maxWebhookFailureCount)
      ensures maxWebhookFailureCount < 1 ==> maxFailureCount == 1
    {
      this.cache, this.repo, this.runtime := cache, cache.repo, runtime;
      maxFailureCount := if maxWebhookFailureCount < 1 then 1 else maxWebhookFailureCount;
      trace := [];
    }

    /** Since then the trace went on, and the tables changed by deliveries and unsubscriptions only. */
    twostate predicate WentOn()
      reads this, repo
    {
      old(trace) <= trace && Advanced(old(repo.View()), old(|trace|), repo.View(), trace)
    }

    method HandleWebhookFailure(d: Delivery)
      requires Wired() && ShouldAttemptWebhook(maxFailureCount, d.trigger) && d.sending == EndpointFailure
      modifies this`trace, repo
      ensures Wired() && trace == old(trace) + [IncrementTried(d.trigger.id)] && repo.logs == old(repo.logs)
      ensures repo.View() == ApplyAll(old(repo.View()), Writes(maxFailureCount, d), maxFailureCount)
    {
      var id, owner := d.trigger.id, d.trigger.owner;
      TwoWrites(repo.View(), Increment(id, owner), Reset(id), maxFailureCount);
      LogsAfter(repo.View(), Increment(id, owner), maxFailureCount);
      hide Apply, ApplyAll, IncrementFailures, Invariant;
      trace := trace + [IncrementTried(id)];
      var counted := repo.IncrementTriggerFailureCount(id, owner, maxFailureCount, d.incrementFault);
    }

    method HandleWebhookSuccess(d: Delivery) returns (r: Result<(), Error>)
      requires Wired() && ShouldAttemptWebhook(maxFailureCount, d.trigger) && d.sending == Delivered
      modifies this`trace, repo
      ensures Wired() && trace == old(trace) + [ResetTried(d.trigger.id), LogTried(d.payload.id, d.trigger.id)]
      ensures repo.View() == ApplyAll(old(repo.View()), Writes(maxFailureCount, d), maxFailureCount)
      ensures r.Ok? <==> |repo.logs| == |old(repo.logs)| + 1
    {
      var log, id := LogOf(d), d.trigger.id;
      TwoWrites(repo.View(), Reset(id), AddLog(log, d.payload.id), maxFailureCount);
      TwoWrites(repo.View(), AddLog(log, d.payload.id), Reset(id), maxFailureCount);
      LogWrites(repo.View(), id, log, d.payload.id, maxFailureCount);
      LogWrites(Apply(repo.View(), Reset(id), maxFailureCount).db, id, log, d.payload.id, maxFailureCount);
      hide Apply, ApplyAll, CreateLog, Invariant;
      trace := trace + [ResetTried(id)];
      var cleared := repo.ResetTriggerFailureCount(id, d.resetFault);
      trace := trace + [LogTried(d.payload.id, id)];
      r := repo.CreateTriggerLog(log, d.payload.id, d.logFault);
    }

    /** Sends, then counts the failure, or clears the count and logs; a success is reported only when the log is stored. */
    method SendAndRecord(d: Delivery) returns (r: Result<(), Error>)
      requires Wired() && ShouldAttemptWebhook(maxFailureCount, d.trigger)
      modifies this`trace, repo
      ensures Wired() && trace == old(trace) + Actions(maxFailureCount, d)
      ensures repo.View() == ApplyAll(old(repo.View()), Writes(maxFailureCount, d), maxFailureCount)
      ensures r.Ok? <==> d.sending == Delivered && |repo.logs| == |old(repo.logs)| + 1
    {
      NoWrites(repo.View(), maxFailureCount);
      hide ApplyAll, Invariant;
      trace := trace + [Sent(d.payload.id, d.trigger.id, d.sending)];
      match d.sending {
        case OtherError =>
          r := Err(Internal);
        case EndpointFailure =>
          HandleWebhookFailure(d);
          r := Err(Internal);
        case Delivered =>
          r := HandleWebhookSuccess(d);
      }
    }

    /** A delivery from the circuit breaker on: accounted for, and changing nothing but counts, statuses and logs. */
    method HandleTriggeredWebhook(d: Delivery) returns (r: Result<(), Error>)
      requires Valid()
      modifies this`trace, repo
      ensures Valid()
      ensures trace == old(trace) + Actions(maxFailureCount, d) && WentOn() && repo.subs == old(repo.subs)
      ensures repo.View() == ApplyAll(old(repo.View()), Writes(maxFailureCount, d), maxFailureCount)
      ensures r.Ok? <==> !ShouldAttemptWebhook(maxFailureCount, d.trigger)
                         || (d.sending == Delivered && |repo.logs| == |old(repo.logs)| + 1)
    {
      ghost var db, before := repo.View(), trace;
      RowsAreKeyed(db, repo.history, repo.max);
      NoWrites(db, maxFailureCount);
      hide AllBalanced, Advanced, ApplyAll, Settings, Invariant, Keyed;
      if ShouldAttemptWebhook(maxFailureCount, d.trigger) {
        r := SendAndRecord(d);
      } else {
        r := Ok(());
        assert trace == before + Actions(maxFailureCount, d);
      }
      hide Actions, Writes, ShouldAttemptWebhook;
      DeliveryKeepsBalance(maxFailureCount, before, d);
      DeliveryAdvances(maxFailureCount, db, before, d);
      DeliveryKeepsSettings(maxFailureCount, db, d);
    }

    ghost function Now(): Moment
      reads this, repo, cache
    {
      Moment(repo.View(), trace, cache.requests, cache.schedule)
    }

    /**
     The verdict is the evaluator's, and only what it asks for happens: a fired
     trigger is delivered; a refused vehicle is unsubscribed and a refresh asked
     for; in any other case nothing changes.
    */
    method ProcessWebhook(ctx: Context, e: Evaluation, o: Outside) returns (r: Result<(), Error>, ghost p: Processed)
      requires Valid()
      modifies this`trace, repo, cache`schedule, cache`requests, cache`refresherContext
      ensures Valid() && WentOn()
      ensures p.e == e && p.o == o && Judged(cache.env, runtime, old(repo.View()), e, o, p.verdict)
      ensures Now() == Onto(maxFailureCount, old(Now()), p)
      ensures cache.refresherContext == if Unsubscribes(p) && !old(cache.schedule) then ctx else old(cache.refresherContext)
      ensures !e.metric.MalformedSnapshot? && Refused(cache.env, e, o) ==>
                && r.Ok? && PairOf(e) !in repo.subs && trace == old(trace)
                && cache.requests == old(cache.requests) + 1 && cache.schedule
      ensures r.Ok? <==>
              && p.verdict.Ok? && (p.verdict == Ok(PermissionDenied) ==> Unsubscribes(p))
              && (p.verdict == Ok(Fire) && ShouldAttemptWebhook(maxFailureCount, e.webhook.trigger) ==>
                    o.sending == Delivered && |repo.logs| == |old(repo.logs)| + 1)
      ensures old(repo.subs) - repo.subs <= {PairOf(e)}
    {
      hide AllBalanced, Invariant, ApplyAll, Writes, Actions, ShouldAttemptWebhook;
      var t := e.webhook.trigger;
      var own := repo.GetLastLogValue(t.id, e.asset, false);
      var onMetric := repo.GetLastLogForMetric(e.asset, t.metricName, false);
      var result := Evaluate(cache.env, runtime, e.webhook, e.asset, e.metric, o, Read(o.ownFault, own.value),
                             Read(o.metricFault, onMetric.value));
      RefusedIsDenied(cache.env, runtime, e, o, Read(o.ownFault, own.value), Read(o.metricFault, onMetric.value));
      hide Evaluate, Granted;
      p := Processed(e, o, result);
      match result {
        case Err(error) =>
          r := Err(error);
        case Ok(PermissionDenied) =>
          var deleted := repo.DeleteVehicleSubscription(t.id, e.asset, o.deleteFault);
          if deleted.Err? { return Err(deleted.error), p; }
          var spawned := cache.ScheduleRefresh(ctx);
          r := Ok(());
        case Ok(Fire) =>
          r := HandleTriggeredWebhook(DeliveryOf(e, o));
        case Ok(_) =>
          r := Ok(());
      }
    }

    /** Since then a refresher was started under this context, or none was. */
    ghost predicate Asked(ctx: Context, schedule0: bool, context0: Context?)
      reads cache
    {
      && (schedule0 ==> cache.schedule)
      && cache.refresherContext == if schedule0 == cache.schedule then context0 else ctx
    }

    /** A member of the group: its error goes no further. */
    method ProcessAndLog(ctx: Context, e: Evaluation, o: Outside) returns (ghost p: Processed)
      requires Valid()
      modifies this`trace, repo, cache`schedule, cache`requests, cache`refresherContext
      ensures Valid() && WentOn()
      ensures p.e == e && p.o == o && Judged(cache.env, runtime, old(repo.View()), e, o, p.verdict)
      ensures Now() == Onto(maxFailureCount, old(Now()), p)
      ensures old(repo.subs) - repo.subs <= {PairOf(e)}
      ensures Asked(ctx, old(cache.schedule), old(cache.refresherContext))
    {
      hide AllBalanced, Invariant, Advanced, Judged, ApplyAll, Refused;
      var r;
      r, p := ProcessWebhook(ctx, e, o);
    }

    /** What was processed since `start` accounts for everything that has changed since. */
    ghost predicate Told(start: Moment, done: seq<Processed>)
      reads this, repo, cache
    {
      Now() == Later(maxFailureCount, start, done) && AllJudged(cache.env, runtime, maxFailureCount, start, done)
    }

    /** Where the fan-out over `all` stands when `left` are still to come, seen from its start. */
    ghost predicate FanningOut(left: seq<Webhook>, all: seq<Webhook>, asset: string, metric: Snapshot,
                               outside: string -> Outside, start: Moment, done: seq<Processed>)
      reads this, repo, cache
    {
      && Valid() && Told(start, done) && Grew(start, Now())
      && Fanned(left, all, asset, metric, outside, start.db.subs, repo.subs, done)
    }

    method FanOutNext(ctx: Context, left: seq<Webhook>, i: nat, asset: string, metric: Snapshot, outside: string -> Outside,
                      ghost all: seq<Webhook>, ghost start: Moment, ghost done: seq<Processed>)
      returns (ghost done': seq<Processed>)
      requires i < |left| && FanningOut(left, all, asset, metric, outside, start, done)
      modifies this`trace, repo, cache`schedule, cache`requests, cache`refresherContext
      ensures FanningOut(left[..i] + left[i + 1..], all, asset, metric, outside, start, done')
      ensures Asked(ctx, old(cache.schedule), old(cache.refresherContext))
    {
      ghost var mid := Now();
      hide AllBalanced, Advanced, Invariant, Later, Onto, Judged, AllJudged, Evaluations, Fanned, Wired;
      ghost var p := ProcessAndLog(ctx, Evaluation(left[i], asset, metric), outside(left[i].trigger.id));
      OneMore(cache.env, runtime, maxFailureCount, start, done, p);
      GrewOn(start, mid, Now());
      FannedNext(left, i, all, asset, metric, outside, start.db.subs, mid.db.subs, repo.subs, done, p);
      done' := done + [p];
    }

    /** The group's loop, its members in any order. */
    method FanOut(ctx: Context, webhooks: seq<Webhook>, asset: string, metric: Snapshot, outside: string -> Outside)
      returns (ghost done: seq<Processed>)
      requires Valid()
      modifies this`trace, repo, cache`schedule, cache`requests, cache`refresherContext
      ensures FanningOut([], webhooks, asset, metric, outside, old(Now()), done)
      ensures Asked(ctx, old(cache.schedule), old(cache.refresherContext))
    {
      var left := webhooks;
      ghost var start := Now();
      done := [];
      FannedFirst(webhooks, asset, metric, outside, start.db.subs);
      hide AllBalanced, Invariant, Fanned, Wired;
      assert FanningOut(left, webhooks, asset, metric, outside, start, done);
      hide Later, AllJudged, Advanced;
      while |left| > 0
        invariant FanningOut(left, webhooks, asset, metric, outside, start, done)
        invariant Asked(ctx, old(cache.schedule), old(cache.refresherContext))
      {
        var i :| 0 <= i < |left|;
        done := FanOutNext(ctx, left, i, asset, metric, outside, webhooks, start, done);
        left := left[..i] + left[i + 1..];
      }
      assert left == [];
    }

    /**
     The fan-out, in any order: every matching webhook is evaluated once on the
     tables of its turn, whatever becomes of each; what the verdicts ask for is
     all that happens; and every refused webhook has lost its pair. A refresher
     started by a denial is left with a context that is over: the group's, which
     ends with the wait.
    */
    method ProcessSingle(asset: string, metric: Snapshot, outside: string -> Outside) returns (ghost done: seq<Processed>)
      requires Valid()
      modifies this`trace, repo, cache`schedule, cache`requests, cache`refresherContext
      ensures Valid() && WentOn()
      ensures Evaluations(done) == Each(Matched(cache.webhooks, asset, metric), asset, metric) && AsOutside(done, outside)
      ensures Told(old(Now()), done) && SentBy(maxFailureCount, old(trace), trace, done)
      ensures RefusedGone(cache.env, Matched(cache.webhooks, asset, metric), asset, metric, outside, repo.subs, cache.schedule)
      ensures old(repo.subs) - repo.subs <= Pairs(asset, Matched(cache.webhooks, asset, metric))
      ensures old(cache.schedule) ==> cache.schedule && cache.refresherContext == old(cache.refresherContext)
      ensures !old(cache.schedule) && cache.schedule ==> cache.refresherContext != null && cache.refresherContext.over
    {
      var webhooks := cache.GetWebhooks(asset, MetricKey(metric).0, MetricKey(metric).1);
      done := [];
      hide SentBy;
      SendsAreTheirs(maxFailureCount, Now(), done);
      if |webhooks| == 0 { return; }
      var groupCtx := new Context();
      hide AllBalanced, Invariant, Refused, Fanned, Later, AllJudged, Wired, Pairs, Each, Evaluations, Matched;
      assert webhooks == Matched(cache.webhooks, asset, metric) by { MatchedIsLookup(cache.webhooks, asset, metric); }
      ghost var start := Now();
      done := FanOut(groupCtx, webhooks, asset, metric, outside);
      groupCtx.End();
      FannedLast(webhooks, asset, metric, outside, start.db.subs, repo.subs, done);
      SendsAreTheirs(maxFailureCount, start, done);
      RefusedAreGone(cache.env, runtime, maxFailureCount, start, done, webhooks, asset, metric, outside);
    }

    /** One unpacked signal or event: it fails, and evaluates nothing, when it does not encode or names no asset. */
    method ProcessPart(part: Part, outside: string -> Outside) returns (failed: bool, ghost done: seq<Processed>)
      requires Valid()
      modifies this`trace, repo, cache`schedule, cache`requests, cache`refresherContext
      ensures Valid() && WentOn() && failed == !(part.marshals && part.asset.Some?)
      ensures Told(old(Now()), done)
      ensures Handled(cache.env, cache.webhooks, part, outside, repo.subs, cache.schedule, done)
      ensures old(cache.schedule) ==> cache.schedule
    {
      failed := !(part.marshals && part.asset.Some?);
      done := [];
      hide Judged, Matched, Each, Refused;
      if !failed { done := ProcessSingle(part.asset.value, part.metric, outside); }
    }

    /** Where the loop over a message's parts stands, seen from its start. */
    ghost predicate SoFar(parts: seq<Part>, i: nat, errors: nat, outside: nat -> string -> Outside, start: Moment,
                          runs: seq<seq<Processed>>)
      requires i <= |parts|
      reads this, repo, cache
    {
      && Valid() && PartsDone(cache.env, runtime, maxFailureCount, cache.webhooks, parts, i, outside, start, Now(), runs)
      && errors == Unusable(parts[..i])
    }

    method ProcessNext(parts: seq<Part>, i: nat, errors: nat, outside: nat -> string -> Outside, ghost start: Moment,
                       ghost runs: seq<seq<Processed>>) returns (errors': nat, ghost runs': seq<seq<Processed>>)
      requires i < |parts| && SoFar(parts, i, errors, outside, start, runs)
      modifies this`trace, repo, cache`schedule, cache`requests, cache`refresherContext
      ensures SoFar(parts, i + 1, errors', outside, start, runs')
    {
      ghost var mid := Now();
      OneMorePart(cache.webhooks, parts, i);
      hide AllBalanced, Advanced, Invariant, Due, DueFor, Unusable, Later, AllJudged, Evaluations, Handled, PartsDone, Wired;
      var failed;
      ghost var done;
      failed, done := ProcessPart(parts[i], outside(i));
      errors' := if failed then errors + 1 else errors;
      runs' := runs + [done];
      PartsNext(cache.env, runtime, maxFailureCount, cache.webhooks, parts, i, outside, start, mid, Now(), runs, done);
    }

    /** The loop over a message's parts: none stops the others, and the failed ones are counted. */
    method ProcessParts(parts: seq<Part>, outside: nat -> string -> Outside)
      returns (errors: nat, ghost runs: seq<seq<Processed>>)
      requires Valid()
      modifies this`trace, repo, cache`schedule, cache`requests, cache`refresherContext
      ensures Valid() && WentOn()
      ensures errors == |set i | 0 <= i < |parts| && !(parts[i].marshals && parts[i].asset.Some?)|
      ensures |runs| == |parts| && Told(old(Now()), Flat(runs)) && Evaluations(Flat(runs)) == Due(cache.webhooks, parts)
      ensures SentBy(maxFailureCount, old(trace), trace, Flat(runs))
      ensures AllHandled(cache.env, cache.webhooks, parts, outside, repo.subs, cache.schedule, runs)
    {
      hide AllBalanced, Invariant, Handled;
      UnusableCounts(parts);
      ghost var start := Now();
      errors, runs := 0, [];
      assert SoFar(parts, 0, 0, outside, start, runs);
      hide Later, AllJudged, Unusable, Due, Evaluations, Flat, Matched, Each, SentBy;
      for i := 0 to |parts|
        invariant SoFar(parts, i, errors, outside, start, runs)
      {
        errors, runs := ProcessNext(parts, i, errors, outside, start, runs);
      }
      assert parts[..|parts|] == parts;
      SendsAreTheirs(maxFailureCount, start, Flat(runs));
    }

    /** A message that cannot be read evaluates nothing; otherwise only what cannot be encoded is missed and counted. */
    method ProcessSignalMessage(msg: SignalMessage, outside: nat -> string -> Outside)
      returns (errors: nat, ghost runs: seq<seq<Processed>>)
      requires Valid()
      modifies this`trace, repo, cache`schedule, cache`requests, cache`refresherContext
      ensures Valid() && WentOn() && Told(old(Now()), Flat(runs)) && SentBy(maxFailureCount, old(trace), trace, Flat(runs))
      ensures msg.NoSignals? || msg.subject == None ==> errors == 1 && runs == []
      ensures msg.SignalMessage? && msg.subject.Some? ==>
                && errors == |set i | 0 <= i < |msg.signals| && !msg.signals[i].1| && |runs| == |msg.signals|
                && forall i :: 0 <= i < |runs| ==>
                     var part := Part(SignalSnapshot(msg.signals[i].0), msg.subject, msg.signals[i].1);
                     Handled(cache.env, cache.webhooks, part, outside(i), repo.subs, cache.schedule, runs[i])
    {
      runs := [];
      hide SentBy;
      SendsAreTheirs(maxFailureCount, Now(), []);
      if msg.NoSignals? || msg.subject == None { return 1, runs; }
      var parts := SignalParts(msg.subject.value, msg.signals);
      SignalPartsAre(msg.subject.value, msg.signals);
      hide AllBalanced, Invariant, Later, AllJudged, Handled, Due, Evaluations, SignalParts, EventParts;
      errors, runs := ProcessParts(parts, outside);
    }

    method ProcessEventMessage(msg: EventMessage, outside: nat -> string -> Outside)
      returns (errors: nat, ghost runs: seq<seq<Processed>>)
      requires Valid()
      modifies this`trace, repo, cache`schedule, cache`requests, cache`refresherContext
      ensures Valid() && WentOn() && Told(old(Now()), Flat(runs)) && SentBy(maxFailureCount, old(trace), trace, Flat(runs))
      ensures msg.NoEvents? ==> errors == 1 && runs == []
      ensures msg.EventMessage? ==>
                && errors == |set i | 0 <= i < |msg.events| && !(msg.events[i].2 && msg.events[i].1.Some?)|
                && |runs| == |msg.events|
                && forall i :: 0 <= i < |runs| ==>
                     var part := Part(EventSnapshot(msg.events[i].0), msg.events[i].1, msg.events[i].2);
                     Handled(cache.env, cache.webhooks, part, outside(i), repo.subs, cache.schedule, runs[i])
    {
      runs := [];
      hide SentBy;
      SendsAreTheirs(maxFailureCount, Now(), []);
      if msg.NoEvents? { return 1, runs; }
      var parts := EventParts(msg.events);
      EventPartsAre(msg.events);
      hide AllBalanced, Invariant, Later, AllJudged, Handled, Due, Evaluations, SignalParts, EventParts;
      errors, runs := ProcessParts(parts, outside);
    }
  }
}
