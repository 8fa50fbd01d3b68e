/**
 The cache's refresh protocol beside everything that writes the database:
 requests set a flag by compare-and-swap, a refresher sleeps, clears the flag
 and populates, and a populate reads the subscriptions and then the triggers,
 one by one, while handlers and deliveries go on
 (internal/services/webhookcache/webhook_cache.go).
*/
module RefreshProtocol {
  import opened Wrappers
  import opened Domain
  import opened Store
  import opened Repository
  import opened WebhookIndex
  import opened WebhookCache
  import CompilePool
  import H = Handlers

  /**
   Sleeping and Awake are before the flag is cleared, Cleared before the
   subscriptions are read. `answers` fills in any order, as the pool answers.
  */
  datatype Phase =
    | Sleeping
    | Awake
    | Cleared
    | Populating(rows: seq<Subscription>, answers: map<string, Option<Webhook>>)

  /**
   `dirty`: triggers or subscriptions changed since the last request. The
   ticks order the last request and the last beginning of a populate. A
   refresher reads under the context of the request that started it;
   `contexts` keeps that, and `ended` the contexts that are over.
  */
  datatype Service = Service(
    store: H.State,
    flag: bool,
    refreshers: map<nat, Phase>,
    published: Index,
    dirty: bool,
    tick: nat,
    lastRequest: nat,
    lastBegin: nat,
    contexts: map<nat, nat>,
    ended: set<nat>)

  datatype Step =
    | Store(step: H.Step)
    | Request(r: nat, context: nat)
    | End(context: nat)
    | Wake(r: nat)
    | Clear(r: nat)
    | ReadRows(r: nat, rows: seq<Subscription>)
    | FailRows(r: nat)
    | ReadTrigger(r: nat, id: string, fails: bool)
    | Publish(r: nat)

  predicate In(s: Service, r: nat, p: Phase -> bool) { r in s.refreshers && p(s.refreshers[r]) }

  predicate Waiting(s: Service, r: nat) { In(s, r, (p: Phase) => p.Sleeping? || p.Awake?) }

  predicate IsCleared(s: Service, r: nat) { In(s, r, (p: Phase) => p.Cleared?) }

  predicate IsPopulating(s: Service, r: nat) { In(s, r, (p: Phase) => p.Populating?) }

  predicate AllAnswered(p: Phase) {
    p.Populating? && forall i :: 0 <= i < |p.rows| ==> p.rows[i].triggerId in p.answers
  }

  /** The context the refresher reads under is not over: its reads can succeed. */
  predicate Alive(s: Service, r: nat) { r in s.contexts && s.contexts[r] !in s.ended }

  /** A read can always fail, and can succeed only under a context that is not over. */
  ghost predicate CanStep(s: Service, step: Step) {
    match step
    case Store(_) => true
    case End(_) => true
    case Request(r, _) => r !in s.refreshers
    case Wake(r) => In(s, r, (p: Phase) => p.Sleeping?)
    case Clear(r) => In(s, r, (p: Phase) => p.Awake?)
    case ReadRows(r, rows) => IsCleared(s, r) && Alive(s, r) && Enumerates(rows, LiveSubscriptions(s.store.db))
    case FailRows(r) => IsCleared(s, r)
    case ReadTrigger(r, id, fails) =>
      IsPopulating(s, r) && (exists i :: 0 <= i < |s.refreshers[r].rows| && s.refreshers[r].rows[i].triggerId == id)
      && id !in s.refreshers[r].answers && (fails || Alive(s, r))
    case Publish(r) => In(s, r, AllAnswered)
  }

  ghost function Moved(s: Service, r: nat, p: Phase): Service { s.(refreshers := s.refreshers[r := p]) }

  ghost function Ended(s: Service, r: nat): Service { s.(refreshers := s.refreshers - {r}) }

  ghost function Effect(env: Env, s: Service, step: Step): Service
    requires CanStep(s, step)
  {
    match step
    case Store(st) =>
      var store := H.Next(env, s.store, st);
      s.(store := store,
         dirty := s.dirty || store.db.triggers != s.store.db.triggers || store.db.subs != s.store.db.subs)
    case End(c) => s.(ended := s.ended + {c})
    case Request(r, c) =>
      var asked := s.(dirty := false, lastRequest := s.tick);
      if s.flag then asked else Moved(asked, r, Sleeping).(flag := true, contexts := s.contexts[r := c])
    case Wake(r) => if s.flag then Moved(s, r, Awake) else Ended(s, r)
    case Clear(r) => Moved(s, r, Cleared).(flag := false)
    case ReadRows(r, rows) => Moved(s, r, Populating(rows, map[])).(lastBegin := s.tick)
    case FailRows(r) => Ended(s, r).(lastBegin := s.tick)
    case ReadTrigger(r, id, fails) =>
      var p := s.refreshers[r];
      var answer := if fails then None else Compile(env, s.store.db, id);
      Moved(s, r, p.(answers := p.answers[id := answer]))
    case Publish(r) =>
      var p := s.refreshers[r];
      Ended(s, r).(published := BuildIndex(p.rows, CompilePool.Successes(p.answers)))
  }

  ghost function Next(env: Env, s: Service, step: Step): Service
    requires CanStep(s, step)
  {
    Effect(env, s, step).(tick := s.tick + 1)
  }

  ghost predicate Runs(env: Env, s: Service, steps: seq<Step>)
    decreases |steps|
  {
    steps == [] || (CanStep(s, steps[0]) && Runs(env, Next(env, s, steps[0]), steps[1..]))
  }

  ghost function Run(env: Env, s: Service, steps: seq<Step>): Service
    requires Runs(env, s, steps)
    decreases |steps|
  {
    if steps == [] then s else Run(env, Next(env, s, steps[0]), steps[1..])
  }

  /** After start-up: the first populate is done and nothing has been asked for since. */
  ghost predicate Started(env: Env, s: Service) {
    && env.maxFailures >= 1 && H.HandlersOk(env, s.store)
    && !s.flag && s.refreshers == map[] && !s.dirty
    && s.lastRequest < s.lastBegin < s.tick
    && IsIndexOf(env, s.store.db, s.published, {}) && AllGood(env, s.published)
  }

  /** Start-up: one populate, before anything else runs, of the database it finds. */
  ghost function Boot(store: H.State, rows: seq<Subscription>, answers: map<string, Option<Webhook>>): Service {
    Service(store, false, map[], BuildIndex(rows, CompilePool.Successes(answers)), false, 3, 0, 1, map[], {})
  }

  ghost predicate BootReads(env: Env, db: Db, rows: seq<Subscription>, answers: map<string, Option<Webhook>>) {
    && Enumerates(rows, LiveSubscriptions(db))
    && (forall i :: 0 <= i < |rows| ==> rows[i].triggerId in answers)
    && (forall id :: id in answers ==> answers[id] == Compile(env, db, id))
  }

  /** What start-up publishes is the index of that database, and only attemptable webhooks. */
  lemma BootStarts(env: Env, store: H.State, rows: seq<Subscription>, answers: map<string, Option<Webhook>>)
    requires env.maxFailures >= 1 && H.HandlersOk(env, store) && BootReads(env, store.db, rows, answers)
    ensures Started(env, Boot(store, rows, answers))
  {
    var compiled := CompilePool.Successes(answers);
    RowsAreKeyed(store.db, store.history, env.maxFailures);
    hide Compile, Good;
    BuiltIndexIsJoin(env, store.db, rows, {}, compiled);
    forall id | id in compiled && compiled[id].trigger.status == Enabled ensures Good(env, compiled[id]) {
      CompileIsGood(env, store, id);
    }
    BuiltFromGood(env, rows, compiled);
  }

  // ---- Debounce ----

  ghost predicate Pending(s: Service) { exists r :: Waiting(s, r) || IsCleared(s, r) }

  /** The flag stands for exactly one waiting refresher, and the last request is pending or served. */
  ghost predicate DebounceOk(s: Service) {
    && (s.flag <==> exists r :: Waiting(s, r))
    && (forall q, r :: Waiting(s, q) && Waiting(s, r) ==> q == r)
    && s.lastRequest < s.tick && s.lastBegin < s.tick
    && (s.lastRequest < s.lastBegin || Pending(s))
  }

  /** Which refreshers wait, and which are past the flag, after a step. */
  lemma WaitingAfter(env: Env, s: Service, step: Step, r: nat)
    requires CanStep(s, step)
    ensures Waiting(Next(env, s, step), r) <==>
            || (step.Request? && step.r == r && !s.flag)
            || (Waiting(s, r) && step != Clear(r) && (step == Wake(r) ==> s.flag))
    ensures IsCleared(Next(env, s, step), r) <==>
            || step == Clear(r)
            || (IsCleared(s, r) && !((step.ReadRows? || step.FailRows?) && step.r == r))
  {
    hide H.Next, Compile, BuildIndex, Enumerates, LiveSubscriptions;
  }

  /** Only the read of the subscriptions begins a populate, and only the publish ends one. */
  lemma PopulatingAfter(env: Env, s: Service, step: Step, r: nat)
    requires CanStep(s, step)
    ensures IsPopulating(Next(env, s, step), r)
            <==> (step.ReadRows? && step.r == r) || (IsPopulating(s, r) && !(step.Publish? && step.r == r))
  {
    hide H.Next, Compile, BuildIndex, Enumerates, LiveSubscriptions;
  }

  lemma DebounceStep(env: Env, s: Service, step: Step)
    requires DebounceOk(s) && CanStep(s, step)
    ensures DebounceOk(Next(env, s, step))
  {
    var s' := Next(env, s, step);
    forall r { WaitingAfter(env, s, step, r); }
    assert step.Wake? || step.Clear? ==> Waiting(s, step.r);
    assert s'.flag == ((step.Request? || s.flag) && !step.Clear?);
    assert s'.tick == s.tick + 1;
    assert s'.lastRequest == if step.Request? then s.tick else s.lastRequest;
    assert s'.lastBegin == if step.ReadRows? || step.FailRows? then s.tick else s.lastBegin;
    hide Next, CanStep, Waiting, IsCleared;
    if step.Request? && !s.flag { assert Waiting(s', step.r); }
    if step.Clear? { assert IsCleared(s', step.r); }
  }

  lemma {:induction false} DebounceRun(env: Env, s: Service, steps: seq<Step>)
    requires DebounceOk(s) && Runs(env, s, steps)
    ensures DebounceOk(Run(env, s, steps))
    ensures Run(env, s, steps).lastRequest >= s.lastRequest
    decreases |steps|
  {
    if steps != [] {
      DebounceStep(env, s, steps[0]);
      DebounceRun(env, Next(env, s, steps[0]), steps[1..]);
    }
  }

  /** A refresher that wakes always finds the flag set: the branch that skips the populate is never taken. */
  lemma WakeFindsFlag(s: Service, r: nat)
    requires DebounceOk(s) && CanStep(s, Wake(r))
    ensures s.flag
  {
    assert Waiting(s, r);
  }

  /**
   Every request, at any point of any run: later on it is still pending, or a
   populate began to read after it, whether or not that read succeeded.
  */
  lemma EveryRequestIsServed(env: Env, s: Service, r: nat, c: nat, steps: seq<Step>)
    requires DebounceOk(s) && CanStep(s, Request(r, c)) && Runs(env, Next(env, s, Request(r, c)), steps)
    ensures var end := Run(env, Next(env, s, Request(r, c)), steps); end.lastBegin > s.tick || Pending(end)
  {
    DebounceStep(env, s, Request(r, c));
    DebounceRun(env, Next(env, s, Request(r, c)), steps);
  }

  // ---- Circuit breaker: what a published map can hold ----

  /** A webhook a listener with the same threshold attempts, compiled as its trigger demands. */
  predicate Good(env: Env, wh: Webhook) {
    && wh.trigger.status == Enabled && wh.trigger.failures < env.maxFailures
    && PrepareCondition(env, wh.trigger.service, wh.trigger.condition,
                        BuilderValueType(env, wh.trigger.service, wh.trigger.metricName)) == Some(wh.program)
  }

  ghost predicate AllGood(env: Env, index: Index) {
    forall a, k :: a in index && k in index[a] ==> GoodList(env, index[a][k])
  }

  predicate GoodList(env: Env, ws: seq<Webhook>) { forall i :: 0 <= i < |ws| ==> Good(env, ws[i]) }

  /** An answer carries a row that was in the database, and not deleted, when it was fetched. */
  predicate GoodAnswer(env: Env, id: string, answer: Option<Webhook>) {
    answer.Some? ==>
      && answer.value.trigger.id == id && ColonFree(answer.value.trigger.service)
      && (answer.value.trigger.status == Enabled ==> Good(env, answer.value))
  }

  ghost predicate BreakerOk(env: Env, s: Service) {
    && env.maxFailures >= 1 && H.HandlersOk(env, s.store) && AllGood(env, s.published)
    && (forall r, id :: IsPopulating(s, r) && id in s.refreshers[r].answers
          ==> GoodAnswer(env, id, s.refreshers[r].answers[id]))
    && (forall r :: IsPopulating(s, r) ==> Distinct(s.refreshers[r].rows))
  }

  lemma CompileIsGood(env: Env, s: H.State, id: string)
    requires env.maxFailures >= 1 && H.HandlersOk(env, s)
    ensures GoodAnswer(env, id, Compile(env, s.db, id))
  {
  }

  /**
   In every state that requests and deliveries reach, the builder loses a
   trigger only when it cannot be fetched, and every enabled subscribed trigger
   is a row of the join that lookups answer.
  */
  lemma BuilderOnlyLosesFetches(env: Env, steps: seq<H.Step>, asset: string, id: string)
    requires env.maxFailures >= 1
    ensures var db := H.Run(env, H.INITIAL, steps).db;
            && (Compile(env, db, id).Some? <==> InternalGetTrigger(db, id).Ok?)
            && (Subscription(asset, id) in db.subs && id != "" && H.StatusIs(db, id, Enabled) ==>
                  && Compile(env, db, id).Some?
                  && var t := db.triggers[id];
                     Offered(env, db, asset, t.service, t.metricName, Compile(env, db, id).value))
  {
    H.EveryRunKeeps(env, H.INITIAL, steps);
    var s := H.Run(env, H.INITIAL, steps);
    if id in s.db.triggers {
      assert RowOk(s.db.triggers[id], id, s.history, env.maxFailures);
      assert H.Accepted(env, s.db.triggers[id]);
    }
  }

  lemma {:induction false} BuiltFromGood(env: Env, rows: seq<Subscription>, compiled: map<string, Webhook>)
    requires forall id :: id in compiled ==> compiled[id].trigger.status == Enabled ==> Good(env, compiled[id])
    ensures AllGood(env, BuildIndex(rows, compiled))
  {
    if rows != [] {
      BuiltFromGood(env, rows[..|rows| - 1], compiled);
      hide Good;
    }
  }

  lemma PublishIsGood(env: Env, s: Service, r: nat)
    requires BreakerOk(env, s) && CanStep(s, Publish(r))
    ensures AllGood(env, Next(env, s, Publish(r)).published)
  {
    var answers := s.refreshers[r].answers;
    var compiled := CompilePool.Successes(answers);
    assert IsPopulating(s, r);
    assert forall id :: id in compiled ==> GoodAnswer(env, id, answers[id]);
    BuiltFromGood(env, s.refreshers[r].rows, compiled);
  }

  /** What populates under way have read stays sound: rows once each, and answers as they were fetched. */
  lemma ReadsStaySound(env: Env, s: Service, step: Step, r: nat)
    requires BreakerOk(env, s) && CanStep(s, step) && IsPopulating(Next(env, s, step), r)
    ensures var p := Next(env, s, step).refreshers[r];
            Distinct(p.rows) && forall id :: id in p.answers ==> GoodAnswer(env, id, p.answers[id])
  {
    if step.ReadTrigger? { CompileIsGood(env, s.store, step.id); }
    hide GoodAnswer, Compile, H.Next, AllGood, LiveSubscriptions;
    if !(step.ReadRows? && step.r == r) {
      assert IsPopulating(s, r);
      assert forall id :: id in s.refreshers[r].answers ==> GoodAnswer(env, id, s.refreshers[r].answers[id]);
    }
  }

  lemma BreakerStep(env: Env, s: Service, step: Step)
    requires BreakerOk(env, s) && CanStep(s, step)
    ensures BreakerOk(env, Next(env, s, step))
  {
    if step.Store? { H.NextKeeps(env, s.store, step.step); }
    if step.Publish? { PublishIsGood(env, s, step.r); }
    var s' := Next(env, s, step);
    hide GoodAnswer, Distinct, Compile, H.Next, AllGood, BuildIndex, H.HandlersOk;
    forall r | IsPopulating(s', r)
      ensures Distinct(s'.refreshers[r].rows)
      ensures forall id :: id in s'.refreshers[r].answers ==> GoodAnswer(env, id, s'.refreshers[r].answers[id])
    {
      ReadsStaySound(env, s, step, r);
    }
  }

  /** In every run, overlaps and failed reads included, the published map holds only attemptable webhooks. */
  lemma {:induction false} PublishedAreAttemptable(env: Env, s: Service, steps: seq<Step>)
    requires BreakerOk(env, s) && Runs(env, s, steps)
    ensures BreakerOk(env, Run(env, s, steps))
    decreases |steps|
  {
    if steps != [] {
      BreakerStep(env, s, steps[0]);
      PublishedAreAttemptable(env, Next(env, s, steps[0]), steps[1..]);
    }
  }

  // ---- Exactly when a published map is fresh ----

  /** What the populate has read, as the builder will use it. */
  function Compiled(p: Phase): map<string, Webhook>
    requires p.Populating?
  {
    CompilePool.Successes(p.answers)
  }

  lemma ReadsAreSound(env: Env, s: Service, r: nat)
    requires BreakerOk(env, s) && IsPopulating(s, r)
    ensures Sound(s.refreshers[r].rows, Compiled(s.refreshers[r]))
  {
    var p := s.refreshers[r];
    forall id | id in Compiled(p)
      ensures Compiled(p)[id].trigger.id == id && ColonFree(Compiled(p)[id].trigger.service)
    {
      assert GoodAnswer(env, id, p.answers[id]);
    }
  }

  ghost predicate NoPublish(steps: seq<Step>) { forall i :: 0 <= i < |steps| ==> !steps[i].Publish? }

  lemma {:induction false} PublishedStays(env: Env, s: Service, steps: seq<Step>)
    requires BreakerOk(env, s) && Runs(env, s, steps) && NoPublish(steps)
    ensures Run(env, s, steps).published == s.published && BreakerOk(env, Run(env, s, steps))
    decreases |steps|
  {
    if steps != [] {
      assert !steps[0].Publish?;
      BreakerStep(env, s, steps[0]);
      PublishedStays(env, Next(env, s, steps[0]), steps[1..]);
    }
  }

  /**
   Overlapping or not: from a publish to the next, the map is the index of the
   tables exactly while every pair is served, by what that populate read, what
   the tables have for it.
  */
  lemma MapIsFreshExactly(env: Env, s: Service, r: nat, rest: seq<Step>)
    requires BreakerOk(env, s) && CanStep(s, Publish(r))
    requires Runs(env, Next(env, s, Publish(r)), rest) && NoPublish(rest)
    ensures var end, p := Run(env, Next(env, s, Publish(r)), rest), s.refreshers[r];
            IsIndexOf(env, end.store.db, end.published, {})
            <==> forall sub :: ServedBy(p.rows, Compiled(p), sub) == ServedIn(env, end.store.db, sub)
  {
    assert IsPopulating(s, r);
    ReadsAreSound(env, s, r);
    BreakerStep(env, s, Publish(r));
    PublishedStays(env, Next(env, s, Publish(r)), rest);
    var end := Run(env, Next(env, s, Publish(r)), rest);
    RowsAreKeyed(end.store.db, end.store.history, env.maxFailures);
    IndexExactly(env, end.store.db, s.refreshers[r].rows, Compiled(s.refreshers[r]));
  }

  /** A publish offers a pair exactly when its populate read the pair as subscribed and the trigger as enabled. */
  lemma PublishOffersExactly(env: Env, s: Service, r: nat, sub: Subscription)
    requires BreakerOk(env, s) && CanStep(s, Publish(r))
    ensures var p := s.refreshers[r];
            Offers(Next(env, s, Publish(r)).published, sub) <==> ServedBy(p.rows, Compiled(p), sub).Some?
  {
    assert IsPopulating(s, r);
    ReadsAreSound(env, s, r);
    OffersExactly(s.refreshers[r].rows, Compiled(s.refreshers[r]), sub);
  }

  // ---- Freshness ----

  /** Everything this populate has read so far is what the database says now. */
  ghost predicate IsCurrent(env: Env, db: Db, p: Phase) {
    && p.Populating? && Enumerates(p.rows, LiveSubscriptions(db))
    && (forall id :: id in p.answers ==> p.answers[id] == Compile(env, db, id))
  }

  ghost predicate CurrentPopulate(env: Env, s: Service, r: nat) {
    IsPopulating(s, r) && IsCurrent(env, s.store.db, s.refreshers[r])
  }

  /** No other populate is under way when one begins. */
  predicate Apart(s: Service, step: Step) {
    step.ReadRows? ==> forall r :: r in s.refreshers ==> !s.refreshers[r].Populating?
  }

  ghost predicate ApartRun(env: Env, s: Service, steps: seq<Step>)
    requires Runs(env, s, steps)
    decreases |steps|
  {
    steps == [] || (Apart(s, steps[0]) && ApartRun(env, Next(env, s, steps[0]), steps[1..]))
  }

  /** A read that fails. */
  predicate Fails(step: Step) { step.FailRows? || (step.ReadTrigger? && step.fails) }

  /** Populates stay apart and no read fails. */
  predicate Undisturbed(s: Service, step: Step) { Apart(s, step) && !Fails(step) }

  ghost predicate CalmRun(env: Env, s: Service, steps: seq<Step>)
    requires Runs(env, s, steps)
    decreases |steps|
  {
    steps == [] || (Undisturbed(s, steps[0]) && CalmRun(env, Next(env, s, steps[0]), steps[1..]))
  }

  /** Whether a read has failed since the last request; `before` says so of the start. */
  function FailedSince(before: bool, steps: seq<Step>): bool
    decreases |steps|
  {
    if steps == [] then before else FailedSince(!steps[0].Request? && (before || Fails(steps[0])), steps[1..])
  }

  /** The reads of the run fail only under contexts that are over: nothing else goes wrong. */
  ghost predicate Faultless(env: Env, s: Service, steps: seq<Step>)
    requires Runs(env, s, steps)
    decreases |steps|
  {
    steps == [] || ((Fails(steps[0]) ==> !Alive(s, steps[0].r)) && Faultless(env, Next(env, s, steps[0]), steps[1..]))
  }

  ghost predicate OnePopulate(s: Service) { forall q, r :: IsPopulating(s, q) && IsPopulating(s, r) ==> q == r }

  lemma OnePopulateStep(env: Env, s: Service, step: Step)
    requires OnePopulate(s) && CanStep(s, step) && Apart(s, step)
    ensures OnePopulate(Next(env, s, step))
  {
    forall r { PopulatingAfter(env, s, step, r); }
    assert step.ReadRows? ==> forall r :: !IsPopulating(s, r);
    hide Next, CanStep, IsPopulating;
  }

  /** Unless a write has yet to be announced, the published map is fresh or will be replaced by a fresh one. */
  ghost predicate FreshOk(env: Env, s: Service) {
    && OnePopulate(s)
    && (s.dirty || Pending(s) || (exists r :: CurrentPopulate(env, s, r))
        || ((forall r :: !IsPopulating(s, r)) && IsIndexOf(env, s.store.db, s.published, {})))
  }

  lemma SameTables(env: Env, db: Db, db': Db)
    requires db.triggers == db'.triggers && db.subs == db'.subs
    ensures forall id :: Compile(env, db, id) == Compile(env, db', id)
    ensures LiveSubscriptions(db) == LiveSubscriptions(db')
    ensures forall index :: IsIndexOf(env, db, index, {}) ==> IsIndexOf(env, db', index, {})
  {
    forall index | IsIndexOf(env, db, index, {}) ensures IsIndexOf(env, db', index, {}) {
      forall a, svc, m | ColonFree(svc) ensures LookupIsJoin(env, db', index, {}, a, svc, m) {
        assert LookupIsJoin(env, db, index, {}, a, svc, m);
        assert forall wh :: Offered(env, db, a, svc, m, wh) <==> Offered(env, db', a, svc, m, wh);
      }
    }
  }

  lemma FreshStore(env: Env, s: Service, st: H.Step)
    requires FreshOk(env, s)
    ensures FreshOk(env, Next(env, s, Store(st)))
  {
    var s' := Next(env, s, Store(st));
    assert forall r :: Waiting(s', r) == Waiting(s, r) && IsCleared(s', r) == IsCleared(s, r)
                       && IsPopulating(s', r) == IsPopulating(s, r);
    if !s'.dirty {
      SameTables(env, s.store.db, s'.store.db);
      hide H.Next, Compile, IsIndexOf;
      if r :| CurrentPopulate(env, s, r) { assert CurrentPopulate(env, s', r); }
    }
  }

  lemma FreshEnd(env: Env, s: Service, c: nat)
    requires FreshOk(env, s)
    ensures FreshOk(env, Next(env, s, End(c)))
  {
    var s' := Next(env, s, End(c));
    hide IsIndexOf, IsCurrent;
    assert forall r :: Waiting(s', r) == Waiting(s, r) && IsCleared(s', r) == IsCleared(s, r)
                       && IsPopulating(s', r) == IsPopulating(s, r);
    if r :| CurrentPopulate(env, s, r) { assert CurrentPopulate(env, s', r); }
  }

  lemma FreshPublish(env: Env, s: Service, r: nat)
    requires FreshOk(env, s) && H.HandlersOk(env, s.store) && CanStep(s, Publish(r))
    ensures FreshOk(env, Next(env, s, Publish(r)))
  {
    var s' := Next(env, s, Publish(r));
    assert IsPopulating(s, r) && s'.store == s.store && s'.dirty == s.dirty;
    assert s'.published == BuildIndex(s.refreshers[r].rows, Compiled(s.refreshers[r]));
    forall q { WaitingAfter(env, s, Publish(r), q); }
    forall q { PopulatingAfter(env, s, Publish(r), q); }
    if !s.dirty && !Pending(s) {
      assert CurrentPopulate(env, s, r);
      CurrentReadsAreFresh(env, s, r);
    }
    hide Next, CanStep, Waiting, IsCleared, IsPopulating, IsIndexOf, BuildIndex, IsCurrent, H.HandlersOk;
  }

  /** A populate whose reads are all current builds the index of the tables. */
  lemma CurrentReadsAreFresh(env: Env, s: Service, r: nat)
    requires H.HandlersOk(env, s.store) && CurrentPopulate(env, s, r) && AllAnswered(s.refreshers[r])
    ensures IsIndexOf(env, s.store.db, BuildIndex(s.refreshers[r].rows, Compiled(s.refreshers[r])), {})
  {
    RowsAreKeyed(s.store.db, s.store.history, env.maxFailures);
    hide Compile, Enumerates, LiveSubscriptions, IsIndexOf, BuildIndex;
    BuiltIndexIsJoin(env, s.store.db, s.refreshers[r].rows, {}, Compiled(s.refreshers[r]));
  }

  lemma FreshStep(env: Env, s: Service, step: Step)
    requires FreshOk(env, s) && DebounceOk(s) && H.HandlersOk(env, s.store)
    requires CanStep(s, step) && Undisturbed(s, step)
    ensures FreshOk(env, Next(env, s, step))
  {
    match step
    case Store(st) => FreshStore(env, s, st);
    case End(c) => FreshEnd(env, s, c);
    case Publish(r) => FreshPublish(env, s, r);
    case ReadTrigger(r, id, _) => FreshReadTrigger(env, s, r, id);
    case _ => FreshControl(env, s, step);
  }

  lemma FreshControl(env: Env, s: Service, step: Step)
    requires FreshOk(env, s) && DebounceOk(s)
    requires step.Request? || step.Wake? || step.Clear? || step.ReadRows?
    requires CanStep(s, step) && Undisturbed(s, step)
    ensures FreshOk(env, Next(env, s, step))
  {
    hide IsIndexOf, H.Next;
    var s' := Next(env, s, step);
    var r := step.r;
    assert forall q :: q != r ==> Waiting(s', q) == Waiting(s, q) && IsCleared(s', q) == IsCleared(s, q)
                                  && IsPopulating(s', q) == IsPopulating(s, q)
                                  && CurrentPopulate(env, s', q) == CurrentPopulate(env, s, q);
    if step.Request? {
      DebounceStep(env, s, step);
    } else if step.Wake? {
      assert Waiting(s, r) && Waiting(s', r);
    } else if step.Clear? {
      assert IsCleared(s', r);
    } else {
      assert CurrentPopulate(env, s', r);
    }
  }

  lemma FreshReadTrigger(env: Env, s: Service, r: nat, id: string)
    requires FreshOk(env, s) && CanStep(s, ReadTrigger(r, id, false))
    ensures FreshOk(env, Next(env, s, ReadTrigger(r, id, false)))
  {
    var s' := Next(env, s, ReadTrigger(r, id, false));
    hide IsIndexOf, Compile;
    assert forall q :: Waiting(s', q) == Waiting(s, q) && IsCleared(s', q) == IsCleared(s, q)
                       && IsPopulating(s', q) == IsPopulating(s, q);
    if q :| CurrentPopulate(env, s, q) { assert CurrentPopulate(env, s', q); }
  }

  lemma RequestIsPending(env: Env, s: Service, step: Step)
    requires OnePopulate(s) && DebounceOk(s) && CanStep(s, step) && step.Request?
    ensures FreshOk(env, Next(env, s, step))
  {
    OnePopulateStep(env, s, step);
    DebounceStep(env, s, step);
    hide IsIndexOf, CurrentPopulate, OnePopulate, CanStep;
  }

  lemma {:induction false} FreshRun(env: Env, s: Service, failed: bool, steps: seq<Step>)
    requires OnePopulate(s) && (failed || FreshOk(env, s)) && DebounceOk(s) && BreakerOk(env, s)
    requires Runs(env, s, steps) && ApartRun(env, s, steps)
    ensures FailedSince(failed, steps) || FreshOk(env, Run(env, s, steps))
    decreases |steps|
  {
    if steps != [] {
      var step := steps[0];
      OnePopulateStep(env, s, step);
      if step.Request? {
        RequestIsPending(env, s, step);
      } else if !failed && !Fails(step) {
        FreshStep(env, s, step);
      }
      DebounceStep(env, s, step);
      BreakerStep(env, s, step);
      hide Next, FreshOk, DebounceOk, BreakerOk, OnePopulate, CanStep;
      FreshRun(env, Next(env, s, step), !step.Request? && (failed || Fails(step)), steps[1..]);
    }
  }

  /**
   From start-up on, when no two populates overlap: once no refresher is left,
   every write was followed by a request and no read has failed since the last
   one, the published map is the join of the tables as they are now.
  */
  lemma FreshAtQuiescence(env: Env, s: Service, steps: seq<Step>)
    requires Started(env, s) && Runs(env, s, steps) && ApartRun(env, s, steps) && !FailedSince(false, steps)
    requires Run(env, s, steps).refreshers == map[] && !Run(env, s, steps).dirty
    ensures IsIndexOf(env, Run(env, s, steps).store.db, Run(env, s, steps).published, {})
  {
    assert forall r :: !IsPopulating(s, r) && !Waiting(s, r);
    FreshRun(env, s, false, steps);
    var end := Run(env, s, steps);
    assert forall r :: !IsPopulating(end, r) && !Waiting(end, r) && !IsCleared(end, r);
  }

  // ---- Why populates must not overlap ----

  lemma {:induction false} OneMore(env: Env, s: Service, steps: seq<Step>, step: Step)
    requires Runs(env, s, steps) && CanStep(Run(env, s, steps), step)
    ensures Runs(env, s, steps + [step]) && Run(env, s, steps + [step]) == Next(env, Run(env, s, steps), step)
    decreases |steps|
  {
    if steps == [] {
      assert (steps + [step])[1..] == [];
    } else {
      assert (steps + [step])[1..] == steps[1..] + [step];
      OneMore(env, Next(env, s, steps[0]), steps[1..], step);
    }
  }

  /** One more refresh under a live context, from the request to the read of the subscriptions, when nobody is waiting. */
  lemma BeginPopulate(env: Env, s: Service, steps: seq<Step>, r: nat, c: nat, rows: seq<Subscription>)
    returns (steps': seq<Step>)
    requires Runs(env, s, steps)
    requires var mid := Run(env, s, steps);
             && !mid.flag && r !in mid.refreshers && c !in mid.ended
             && Enumerates(rows, LiveSubscriptions(mid.store.db))
    ensures Runs(env, s, steps')
    ensures var mid, end := Run(env, s, steps), Run(env, s, steps');
            && end.store == mid.store && end.published == mid.published && !end.flag && !end.dirty
            && end.refreshers == mid.refreshers[r := Populating(rows, map[])]
            && end.contexts == mid.contexts[r := c] && end.ended == mid.ended
  {
    hide Enumerates, LiveSubscriptions, Runs, Run, H.Next, Compile, BuildIndex;
    OneMore(env, s, steps, Request(r, c));
    steps' := steps + [Request(r, c)];
    OneMore(env, s, steps', Wake(r));
    steps' := steps' + [Wake(r)];
    OneMore(env, s, steps', Clear(r));
    steps' := steps' + [Clear(r)];
    OneMore(env, s, steps', ReadRows(r, rows));
    steps' := steps' + [ReadRows(r, rows)];
    assert Run(env, s, steps').refreshers == Run(env, s, steps).refreshers[r := Populating(rows, map[])];
  }

  lemma RemovalWrites(env: Env, s: H.State, sub: Subscription)
    requires sub.asset != "" && sub.triggerId != ""
    ensures H.Next(env, s, H.Write(RemoveSubscription(sub.asset, sub.triggerId))).db == s.db.(subs := s.db.subs - {sub})
  {
  }

  /** A populate that read a subscription compiles its trigger; then the subscription is removed. */
  lemma OverlapSetUp(env: Env, s: Service, first: seq<Step>, sub: Subscription) returns (steps: seq<Step>)
    requires Runs(env, s, first) && sub.asset != "" && sub.triggerId != ""
    requires !Run(env, s, first).flag && Run(env, s, first).refreshers == map[0 := Populating([sub], map[])]
    requires Alive(Run(env, s, first), 0)
    ensures Runs(env, s, steps)
    ensures var before, mid := Run(env, s, first), Run(env, s, steps);
            && mid.ended == before.ended && mid.store.db == before.store.db.(subs := before.store.db.subs - {sub}) && !mid.flag
            && mid.refreshers
               == map[0 := Populating([sub], map[sub.triggerId := Compile(env, before.store.db, sub.triggerId)])]
  {
    var id := sub.triggerId;
    RemovalWrites(env, Run(env, s, first).store, sub);
    hide Compile, H.Next;
    assert Run(env, s, first).refreshers[0].rows[0].triggerId == id;
    OneMore(env, s, first, ReadTrigger(0, id, false));
    steps := first + [ReadTrigger(0, id, false)];
    OneMore(env, s, steps, Store(H.Write(RemoveSubscription(sub.asset, id))));
    steps := steps + [Store(H.Write(RemoveSubscription(sub.asset, id)))];
  }

  /** The second refresh reads the emptied table and publishes first; the first one then puts the old map back. */
  lemma OverlapFinish(env: Env, s: Service, first: seq<Step>, c: nat) returns (steps: seq<Step>)
    requires Runs(env, s, first)
    requires var mid := Run(env, s, first);
             && !mid.flag && c !in mid.ended && LiveSubscriptions(mid.store.db) == {} && mid.refreshers.Keys == {0}
             && mid.refreshers[0].Populating? && AllAnswered(mid.refreshers[0])
    ensures Runs(env, s, steps)
    ensures var mid, end := Run(env, s, first), Run(env, s, steps);
            && end.refreshers == map[] && !end.flag && !end.dirty && end.store == mid.store
            && end.published == BuildIndex(mid.refreshers[0].rows, CompilePool.Successes(mid.refreshers[0].answers))
  {
    steps := BeginPopulate(env, s, first, 1, c, []);
    OneMore(env, s, steps, Publish(1));
    steps := steps + [Publish(1)];
    OneMore(env, s, steps, Publish(0));
    steps := steps + [Publish(0)];
  }

  lemma OneRowServes(env: Env, db: Db, sub: Subscription, service: string, metricName: string, wh: Webhook)
    requires sub.triggerId == wh.trigger.id && ColonFree(service) && Offered(env, db, sub.asset, service, metricName, wh)
    ensures Compile(env, db, sub.triggerId) == Some(wh)
    ensures wh in Lookup(BuildIndex([sub], map[sub.triggerId := wh]), sub.asset, service, metricName)
  {
  }

  /**
   Overlapping populates under live contexts can end with every write announced
   and nobody refreshing, and still serve a vehicle that was unsubscribed.
  */
  lemma OverlapServesStale(env: Env, s: Service, sub: Subscription, service: string, metricName: string, wh: Webhook, c: nat)
    returns (steps: seq<Step>)
    requires c !in s.ended && Started(env, s) && LiveSubscriptions(s.store.db) == {sub} && sub.triggerId == wh.trigger.id
    requires ColonFree(service) && sub.asset != "" && Offered(env, s.store.db, sub.asset, service, metricName, wh)
    ensures Runs(env, s, steps)
    ensures var end := Run(env, s, steps);
            && end.refreshers == map[] && !end.dirty && sub !in end.store.db.subs
            && wh in Lookup(end.published, sub.asset, service, metricName)
            && !IsIndexOf(env, end.store.db, end.published, {})
  {
    OneRowServes(env, s.store.db, sub, service, metricName, wh);
    assert Enumerates([sub], LiveSubscriptions(s.store.db)) by { assert [sub][0] == sub; }
    hide H.HandlersOk, AllGood, BuildIndex, Lookup, H.Next, Compile, IsIndexOf, Runs, Run, Offered, Enumerates;
    var first := BeginPopulate(env, s, [], 0, c, [sub]);
    first := OverlapSetUp(env, s, first, sub);
    NobodyIsLeft(s.store.db, sub);
    steps := OverlapFinish(env, s, first, c);
    StaysServed(env, Run(env, s, steps), sub, service, metricName, wh);
  }

  lemma NobodyIsLeft(db: Db, sub: Subscription)
    requires LiveSubscriptions(db) == {sub}
    ensures LiveSubscriptions(db.(subs := db.subs - {sub})) == {}
  {
    assert forall other :: other in LiveSubscriptions(db.(subs := db.subs - {sub})) ==> other in LiveSubscriptions(db);
  }

  lemma StaysServed(env: Env, end: Service, sub: Subscription, service: string, metricName: string, wh: Webhook)
    requires ColonFree(service) && sub !in end.store.db.subs && sub.triggerId == wh.trigger.id
    requires wh in Lookup(end.published, sub.asset, service, metricName)
    ensures !IsIndexOf(env, end.store.db, end.published, {})
  {
    hide Lookup;
    assert !LookupIsJoin(env, end.store.db, end.published, {}, sub.asset, service, metricName);
  }

  // ---- Removed pairs ----

  /** The pair is not subscribed, and only populates in `stale` have read it as subscribed. */
  ghost predicate Unread(s: Service, sub: Subscription, stale: set<nat>) {
    sub !in s.store.db.subs && forall r :: IsPopulating(s, r) && r !in stale ==> sub !in s.refreshers[r].rows
  }

  /** Populates under way that have read the pair. */
  ghost function Saw(s: Service, sub: Subscription): set<nat> {
    set r | r in s.refreshers && s.refreshers[r].Populating? && sub in s.refreshers[r].rows
  }

  /** A stale populate ends when it publishes, and its number may begin another. */
  function StillStale(stale: set<nat>, step: Step): set<nat> {
    if step.Publish? || step.ReadRows? then stale - {step.r} else stale
  }

  /** The pair is not subscribed again at any point of the run. */
  ghost predicate StaysUnsubscribed(env: Env, s: Service, steps: seq<Step>, sub: Subscription)
    requires Runs(env, s, steps)
    decreases |steps|
  {
    sub !in s.store.db.subs
    && (steps == [] || StaysUnsubscribed(env, Next(env, s, steps[0]), steps[1..], sub))
  }

  /** No publish of the run offers the pair, but for those of stale populates. */
  ghost predicate OnlyStaleOffer(env: Env, s: Service, steps: seq<Step>, sub: Subscription, stale: set<nat>)
    requires Runs(env, s, steps)
    decreases |steps|
  {
    steps == [] ||
    (var s' := Next(env, s, steps[0]);
     && (steps[0].Publish? && steps[0].r !in stale ==> !Offers(s'.published, sub))
     && OnlyStaleOffer(env, s', steps[1..], sub, StillStale(stale, steps[0])))
  }

  lemma UnreadStep(env: Env, s: Service, step: Step, sub: Subscription, stale: set<nat>)
    requires BreakerOk(env, s) && CanStep(s, step) && Unread(s, sub, stale) && sub !in Next(env, s, step).store.db.subs
    ensures Unread(Next(env, s, step), sub, StillStale(stale, step))
    ensures step.Publish? && step.r !in stale ==> !Offers(Next(env, s, step).published, sub)
  {
    if step.Publish? {
      assert IsPopulating(s, step.r);
      PublishOffersExactly(env, s, step.r, sub);
    }
    var s' := Next(env, s, step);
    hide BreakerOk, Offers, H.Next, Compile, BuildIndex, ServedBy;
    forall r | IsPopulating(s', r) && r !in StillStale(stale, step) ensures sub !in s'.refreshers[r].rows {
      if step.ReadRows? && r == step.r { assert sub !in LiveSubscriptions(s.store.db); }
      else { assert IsPopulating(s, r); }
    }
  }

  lemma {:induction false} UnreadRun(env: Env, s: Service, steps: seq<Step>, sub: Subscription, stale: set<nat>)
    requires BreakerOk(env, s) && Runs(env, s, steps) && Unread(s, sub, stale) && StaysUnsubscribed(env, s, steps, sub)
    ensures OnlyStaleOffer(env, s, steps, sub, stale)
    decreases |steps|
  {
    if steps != [] {
      var s' := Next(env, s, steps[0]);
      BreakerStep(env, s, steps[0]);
      assert StaysUnsubscribed(env, s', steps[1..], sub);
      UnreadStep(env, s, steps[0], sub, stale);
      UnreadRun(env, s', steps[1..], sub, StillStale(stale, steps[0]));
    }
  }

  /**
   Whatever was under way when a pair is removed: until it is subscribed again,
   no map that is published offers it, except once by each populate that had
   already read it.
  */
  lemma RemovedPairStaysOut(env: Env, s: Service, steps: seq<Step>, sub: Subscription)
    requires BreakerOk(env, s) && Runs(env, s, steps) && StaysUnsubscribed(env, s, steps, sub)
    ensures OnlyStaleOffer(env, s, steps, sub, Saw(s, sub))
  {
    UnreadRun(env, s, steps, sub, Saw(s, sub));
  }
}
