/**
 How old the answers of the cache can be. The refresh protocol is run with the
 database remembered at every step, so that each published map can be traced to
 the reads it was built from (internal/services/webhookcache/webhook_cache.go).
*/
module RefreshHistory {
  import opened Wrappers
  import opened Domain
  import opened Store
  import opened Repository
  import opened WebhookIndex
  import opened WebhookCache
  import opened R = RefreshProtocol
  import CompilePool

  /**
   The reads of a published map: subscriptions at step `at`, triggers after
   that but for those in `lost`, whose fetch failed, published at step `until`.
  */
  datatype Source = Source(rows: seq<Subscription>, answers: map<string, Option<Webhook>>, lost: set<string>, at: nat, until: nat)

  /** When a populate read its subscriptions, and which fetches have failed since. */
  datatype Reading = Reading(at: nat, lost: set<string>)

  /** `past[t]` is the database before step t; `lastRead` the step of the last subscription read that succeeded. */
  datatype Tracked = Tracked(service: Service, past: seq<Db>, begun: map<nat, Reading>, lastRead: nat, source: Source)

  ghost function BegunAfter(t: Tracked, step: Step): map<nat, Reading> {
    match step
    case ReadRows(r, _) => t.begun[r := Reading(|t.past|, {})]
    case ReadTrigger(r, id, fails) =>
      if r in t.begun then t.begun[r := t.begun[r].(lost := if fails then t.begun[r].lost + {id} else t.begun[r].lost - {id})]
      else t.begun
    case _ => t.begun
  }

  ghost function SourceAfter(t: Tracked, step: Step): Source
    requires CanStep(t.service, step)
  {
    if step.Publish? && step.r in t.begun then
      var p := t.service.refreshers[step.r];
      Source(p.rows, p.answers, t.begun[step.r].lost, t.begun[step.r].at, |t.past|)
    else t.source
  }

  ghost function Advance(env: Env, t: Tracked, step: Step): Tracked
    requires CanStep(t.service, step)
  {
    Tracked(R.Next(env, t.service, step), t.past + [t.service.store.db], BegunAfter(t, step),
            if step.ReadRows? then |t.past| else t.lastRead, SourceAfter(t, step))
  }

  ghost function Follow(env: Env, t: Tracked, steps: seq<Step>): Tracked
    requires Runs(env, t.service, steps)
    decreases |steps|
  {
    if steps == [] then t else Follow(env, Advance(env, t, steps[0]), steps[1..])
  }

  lemma {:induction false} FollowIsRun(env: Env, t: Tracked, steps: seq<Step>)
    requires Runs(env, t.service, steps)
    ensures Follow(env, t, steps).service == R.Run(env, t.service, steps)
    decreases |steps|
  {
    if steps != [] {
      FollowIsRun(env, Advance(env, t, steps[0]), steps[1..]);
    }
  }

  /** The databases so far, the present one last. */
  ghost function States(t: Tracked): seq<Db> { t.past + [t.service.store.db] }

  /** The answer is a fetch and compile against a database strictly between two steps. */
  ghost predicate ReadBetween(env: Env, past: seq<Db>, from: nat, until: nat, id: string, answer: Option<Webhook>) {
    exists t :: from < t < until && t < |past| && answer == Compile(env, past[t], id)
  }

  /** The subscriptions as they were at step `at`, and triggers as they were later on, before `until`, or lost. */
  ghost predicate ReadFrom(env: Env, past: seq<Db>, src: Source) {
    && src.at < src.until <= |past| && Enumerates(src.rows, LiveSubscriptions(past[src.at]))
    && forall id :: id in src.answers ==> FetchedOrLost(env, past, src, id)
  }

  ghost predicate FetchedOrLost(env: Env, past: seq<Db>, src: Source, id: string)
    requires id in src.answers
  {
    if id in src.lost then src.answers[id] == None else ReadBetween(env, past, src.at, src.until, id, src.answers[id])
  }

  predicate Covers(answers: map<string, Option<Webhook>>, rows: seq<Subscription>) {
    forall i :: 0 <= i < |rows| ==> rows[i].triggerId in answers
  }

  function Built(src: Source): Index { BuildIndex(src.rows, CompilePool.Successes(src.answers)) }

  /** The map was built from these reads. */
  ghost predicate BuiltFrom(env: Env, past: seq<Db>, src: Source, index: Index) {
    ReadFrom(env, past, src) && Covers(src.answers, src.rows) && index == Built(src)
  }

  /** What the populate has read so far. */
  function SoFar(t: Tracked, r: nat): Source
    requires IsPopulating(t.service, r) && r in t.begun
  {
    var p := t.service.refreshers[r];
    Source(p.rows, p.answers, t.begun[r].lost, t.begun[r].at, |t.past|)
  }

  /** Everything the populate has read is remembered. */
  ghost predicate HasReadFrom(env: Env, t: Tracked, r: nat)
    requires IsPopulating(t.service, r)
  {
    r in t.begun && ReadFrom(env, t.past, SoFar(t, r))
  }

  ghost predicate PastKeyed(past: seq<Db>) { forall i :: 0 <= i < |past| ==> Keyed(past[i]) }

  /** Everything read by the published map and by the populates under way can be traced. */
  ghost predicate TrackOk(env: Env, t: Tracked) {
    var s := t.service;
    && |t.past| == s.tick && t.lastRead < s.tick && PastKeyed(t.past)
    && (forall r :: IsPopulating(s, r) ==> HasReadFrom(env, t, r))
    && BuiltFrom(env, t.past, t.source, s.published)
  }

  /** One populate at a time: it, or else the published map, holds the last subscriptions that were read. */
  ghost predicate AloneOk(t: Tracked) {
    var s := t.service;
    && OnePopulate(s)
    && (forall r :: IsPopulating(s, r) ==> r in t.begun && t.begun[r].at == t.lastRead)
    && ((forall r :: !IsPopulating(s, r)) ==> t.source.at == t.lastRead)
  }

  /** The service as start-up leaves it is tracked from there. */
  lemma StartUpIsTracked(env: Env, store: H.State, rows: seq<Subscription>, answers: map<string, Option<Webhook>>)
    requires env.maxFailures >= 1 && H.HandlersOk(env, store) && BootReads(env, store.db, rows, answers)
    ensures var s := Boot(store, rows, answers);
            var t := Tracked(s, [store.db, store.db, store.db], map[], 1, Source(rows, answers, {}, 1, 3));
            TrackOk(env, t) && AloneOk(t) && DebounceOk(s) && BreakerOk(env, s)
  {
    BootStarts(env, store, rows, answers);
    RowsAreKeyed(store.db, store.history, env.maxFailures);
    hide Compile, Enumerates, AllGood, BuildIndex, H.HandlersOk, IsIndexOf, LiveSubscriptions, Keyed;
    var past := [store.db, store.db, store.db];
    forall id | id in answers ensures ReadBetween(env, past, 1, 3, id, answers[id]) {
      assert answers[id] == Compile(env, past[2], id);
    }
    assert forall r :: !IsPopulating(Boot(store, rows, answers), r) && !Waiting(Boot(store, rows, answers), r);
  }

  /** What was read stays read as time goes on. */
  lemma ReadFromGrows(env: Env, past: seq<Db>, db: Db, src: Source, until: nat)
    requires ReadFrom(env, past, src) && src.until <= until <= |past| + 1
    ensures ReadFrom(env, past + [db], src.(until := until))
  {
    hide Compile, Enumerates, LiveSubscriptions;
    forall id | id in src.answers && id !in src.lost
      ensures ReadBetween(env, past + [db], src.at, until, id, src.answers[id])
    {
      assert FetchedOrLost(env, past, src, id);
      var t :| src.at < t < src.until && t < |past| && src.answers[id] == Compile(env, past[t], id);
      assert (past + [db])[t] == past[t];
    }
  }

  /** One more answer, read from the database of this step, or lost. */
  lemma ReadFromAnswers(env: Env, past: seq<Db>, db: Db, src: Source, id: string, fails: bool)
    requires ReadFrom(env, past, src) && src.until == |past|
    ensures ReadFrom(env, past + [db],
                     src.(until := |past| + 1, answers := src.answers[id := if fails then None else Compile(env, db, id)],
                          lost := if fails then src.lost + {id} else src.lost - {id}))
  {
    var src' := src.(until := |past| + 1, answers := src.answers[id := if fails then None else Compile(env, db, id)],
                     lost := if fails then src.lost + {id} else src.lost - {id});
    ReadFromGrows(env, past, db, src, |past| + 1);
    hide Compile, Enumerates, LiveSubscriptions;
    assert (past + [db])[|past|] == db;
    assert ReadBetween(env, past + [db], src.at, |past| + 1, id, Compile(env, db, id));
    forall other | other in src'.answers ensures FetchedOrLost(env, past + [db], src', other) {
      if other != id { assert FetchedOrLost(env, past + [db], src.(until := |past| + 1), other); }
    }
  }

  /** A populate under way after a step has read from one moment on. */
  lemma PopulatingStep(env: Env, t: Tracked, step: Step, r: nat)
    requires TrackOk(env, t) && CanStep(t.service, step)
    requires IsPopulating(Advance(env, t, step).service, r)
    ensures HasReadFrom(env, Advance(env, t, step), r)
  {
    var s := t.service;
    hide Compile, Enumerates, LiveSubscriptions, ReadBetween, FetchedOrLost, BuiltFrom, PastKeyed, H.Next;
    if step.ReadRows? && step.r == r {
      assert (t.past + [s.store.db])[|t.past|] == s.store.db;
    } else {
      assert IsPopulating(s, r);
      if step.ReadTrigger? && step.r == r {
        ReadFromAnswers(env, t.past, s.store.db, SoFar(t, r), step.id, step.fails);
      } else {
        ReadFromGrows(env, t.past, s.store.db, SoFar(t, r), |t.past| + 1);
      }
      hide ReadFrom;
    }
  }

  lemma PastStep(env: Env, t: Tracked, step: Step)
    requires TrackOk(env, t) && BreakerOk(env, t.service) && CanStep(t.service, step)
    ensures var t' := Advance(env, t, step); |t'.past| == t'.service.tick && t'.lastRead < t'.service.tick && PastKeyed(t'.past)
  {
    RowsAreKeyed(t.service.store.db, t.service.store.history, env.maxFailures);
    hide Keyed, HasReadFrom, BuiltFrom, BreakerOk, H.Next;
  }

  /** Populates that stay apart keep the last subscriptions that were read. */
  lemma AloneStep(env: Env, t: Tracked, step: Step)
    requires AloneOk(t) && CanStep(t.service, step) && Apart(t.service, step)
    ensures AloneOk(Advance(env, t, step))
  {
    var s, s' := t.service, R.Next(env, t.service, step);
    OnePopulateStep(env, s, step);
    forall r { PopulatingAfter(env, s, step, r); }
    assert step.Publish? ==> IsPopulating(s, step.r);
    assert step.ReadRows? ==> forall r :: !IsPopulating(s, r);
    hide R.Next, CanStep, IsPopulating;
    if step.ReadRows? { assert IsPopulating(s', step.r); }
  }

  lemma PublishedStep(env: Env, t: Tracked, step: Step)
    requires TrackOk(env, t) && CanStep(t.service, step)
    ensures var t' := Advance(env, t, step); BuiltFrom(env, t'.past, t'.source, t'.service.published)
  {
    hide ReadFrom, H.Next, Compile, BuildIndex, PastKeyed;
    var s := t.service;
    if step.Publish? {
      var p := s.refreshers[step.r];
      assert IsPopulating(s, step.r);
      ReadFromGrows(env, t.past, s.store.db, SoFar(t, step.r), |t.past|);
    } else {
      ReadFromGrows(env, t.past, s.store.db, t.source, t.source.until) by { ReadFromEnds(env, t.past, t.source); }
      assert t.source.(until := t.source.until) == t.source;
    }
  }

  lemma ReadFromEnds(env: Env, past: seq<Db>, src: Source)
    requires ReadFrom(env, past, src)
    ensures src.at < src.until <= |past|
  {
  }

  /** Every step, overlapping populates and failed reads included, keeps the published map traceable. */
  lemma TrackStep(env: Env, t: Tracked, step: Step)
    requires TrackOk(env, t) && BreakerOk(env, t.service) && CanStep(t.service, step)
    ensures TrackOk(env, Advance(env, t, step))
  {
    PastStep(env, t, step);
    PublishedStep(env, t, step);
    hide BreakerOk, HasReadFrom, BuiltFrom, PastKeyed, Advance;
    var t' := Advance(env, t, step);
    forall r | IsPopulating(t'.service, r) ensures HasReadFrom(env, t', r) {
      PopulatingStep(env, t, step, r);
    }
  }

  lemma {:induction false} TrackRun(env: Env, t: Tracked, steps: seq<Step>)
    requires TrackOk(env, t) && BreakerOk(env, t.service) && Runs(env, t.service, steps)
    ensures var end := Follow(env, t, steps);
            && TrackOk(env, end) && BreakerOk(env, end.service) && end.service == R.Run(env, t.service, steps)
            && PastKeyed(States(end))
    decreases |steps|
  {
    if steps != [] {
      TrackStep(env, t, steps[0]);
      BreakerStep(env, t.service, steps[0]);
      TrackRun(env, Advance(env, t, steps[0]), steps[1..]);
    } else {
      RowsAreKeyed(t.service.store.db, t.service.store.history, env.maxFailures);
      hide Keyed, HasReadFrom, BuiltFrom, BreakerOk;
    }
  }

  lemma {:induction false} AloneRun(env: Env, t: Tracked, steps: seq<Step>)
    requires AloneOk(t) && Runs(env, t.service, steps) && ApartRun(env, t.service, steps)
    ensures AloneOk(Follow(env, t, steps))
    decreases |steps|
  {
    if steps != [] {
      AloneStep(env, t, steps[0]);
      AloneRun(env, Advance(env, t, steps[0]), steps[1..]);
    }
  }

  /** Whether a subscription read has succeeded since the last request; `before` says so of the start. */
  function ReadSince(before: bool, steps: seq<Step>): bool
    decreases |steps|
  {
    if steps == [] then before
    else ReadSince(if steps[0].Request? then false else steps[0].ReadRows? || before, steps[1..])
  }

  lemma {:induction false} ReadSinceRun(env: Env, t: Tracked, steps: seq<Step>)
    requires Runs(env, t.service, steps) && DebounceOk(t.service) && t.lastRead < |t.past| == t.service.tick
    ensures var end := Follow(env, t, steps);
            end.service.lastRequest < end.lastRead <==> ReadSince(t.service.lastRequest < t.lastRead, steps)
    decreases |steps|
  {
    if steps != [] {
      DebounceStep(env, t.service, steps[0]);
      ReadSinceRun(env, Advance(env, t, steps[0]), steps[1..]);
    }
  }

  /**
   However triggers and subscriptions are written meanwhile and whichever reads
   fail: when populates do not overlap, then once no refresher is left the
   published map was built from the last subscriptions that were read, and from
   triggers read between that and the publish. They were read after the last
   request exactly when some subscription read since then succeeded.
  */
  lemma ServedSinceLastRequest(env: Env, t: Tracked, steps: seq<Step>)
    requires TrackOk(env, t) && AloneOk(t) && BreakerOk(env, t.service) && DebounceOk(t.service)
    requires Runs(env, t.service, steps) && ApartRun(env, t.service, steps)
    requires R.Run(env, t.service, steps).refreshers == map[]
    ensures var end := Follow(env, t, steps);
            && BuiltFrom(env, end.past, end.source, end.service.published)
            && end.source.at == end.lastRead && end.source.at < end.source.until <= |end.past|
            && (end.service.lastRequest < end.source.at <==> ReadSince(t.service.lastRequest < t.lastRead, steps))
  {
    TrackRun(env, t, steps);
    AloneRun(env, t, steps);
    ReadSinceRun(env, t, steps);
    var end := Follow(env, t, steps);
    assert forall r :: !IsPopulating(end.service, r);
  }

  // ---- Exactly when it is the index of one state ----

  lemma CompiledRow(env: Env, db: Db, id: string)
    requires Keyed(db) && Compile(env, db, id).Some?
    ensures var t := Compile(env, db, id).value.trigger; t.id == id && ColonFree(t.service)
  {
  }

  lemma SourceIsSound(env: Env, past: seq<Db>, src: Source)
    requires ReadFrom(env, past, src) && PastKeyed(past)
    ensures Sound(src.rows, CompilePool.Successes(src.answers))
  {
    hide Compile, Keyed, LiveSubscriptions;
    forall id | id in src.answers && src.answers[id].Some?
      ensures src.answers[id].value.trigger.id == id && ColonFree(src.answers[id].value.trigger.service)
    {
      assert FetchedOrLost(env, past, src, id);
      var t :| src.at < t < src.until && t < |past| && src.answers[id] == Compile(env, past[t], id);
      CompiledRow(env, past[t], id);
    }
  }

  /** The reads give every pair what this database has for it. */
  ghost predicate AgreesWith(env: Env, db: Db, src: Source) {
    forall sub :: ServedBy(src.rows, CompilePool.Successes(src.answers), sub) == ServedIn(env, db, sub)
  }

  /** The map is the index of a database state later than step `from`. */
  ghost predicate IsIndexSince(env: Env, states: seq<Db>, from: nat, index: Index) {
    exists k :: from < k < |states| && IsIndexOf(env, states[k], index, {})
  }

  ghost predicate AgreesSince(env: Env, states: seq<Db>, from: nat, src: Source) {
    exists k :: from < k < |states| && AgreesWith(env, states[k], src)
  }

  /** Each listed trigger was, when fetched, as far as lookups tell, what it is in this database; one that was lost counts as absent. */
  ghost predicate AnswersAgree(env: Env, db: Db, src: Source)
    requires Covers(src.answers, src.rows)
  {
    forall i :: 0 <= i < |src.rows| ==>
      Served(src.answers[src.rows[i].triggerId]) == Served(Compile(env, db, src.rows[i].triggerId))
  }

  /**
   At every point of every run, overlapping populates and failed reads
   included, the published map is the index of a database state later than the
   last request exactly when its reads agree with one such state. For the state
   in which the subscriptions were read, only the listed triggers count, each as
   it was fetched.
  */
  lemma OneStateExactly(env: Env, t: Tracked, steps: seq<Step>)
    requires TrackOk(env, t) && BreakerOk(env, t.service) && Runs(env, t.service, steps)
    ensures var end := Follow(env, t, steps);
            && Covers(end.source.answers, end.source.rows) && end.source.at < |end.past|
            && (IsIndexOf(env, end.past[end.source.at], end.service.published, {})
                <==> AnswersAgree(env, end.past[end.source.at], end.source))
            && (IsIndexSince(env, States(end), end.service.lastRequest, end.service.published)
                <==> AgreesSince(env, States(end), end.service.lastRequest, end.source))
  {
    TrackRun(env, t, steps);
    var end := Follow(env, t, steps);
    hide Follow, R.Run, Runs, BreakerOk, PastKeyed, IsIndexOf, AnswersAgree, IsIndexSince, AgreesSince, HasReadFrom;
    SourceExactly(env, end.past, end.source);
    SomeStateExactly(env, end.past, end.source, States(end), end.service.lastRequest);
  }

  lemma SomeStateExactly(env: Env, past: seq<Db>, src: Source, states: seq<Db>, from: nat)
    requires ReadFrom(env, past, src) && PastKeyed(past) && PastKeyed(states)
    ensures IsIndexSince(env, states, from, Built(src)) <==> AgreesSince(env, states, from, src)
  {
    hide IsIndexOf, AgreesWith, Keyed, ReadFrom;
    forall k | 0 <= k < |states| ensures IsIndexOf(env, states[k], Built(src), {}) <==> AgreesWith(env, states[k], src) {
      StateExactly(env, past, src, states[k]);
    }
  }

  lemma StateExactly(env: Env, past: seq<Db>, src: Source, db: Db)
    requires ReadFrom(env, past, src) && PastKeyed(past) && Keyed(db)
    ensures IsIndexOf(env, db, Built(src), {}) <==> AgreesWith(env, db, src)
  {
    SourceIsSound(env, past, src);
    IndexExactly(env, db, src.rows, CompilePool.Successes(src.answers));
  }

  lemma SourceExactly(env: Env, past: seq<Db>, src: Source)
    requires ReadFrom(env, past, src) && PastKeyed(past) && Covers(src.answers, src.rows)
    ensures IsIndexOf(env, past[src.at], Built(src), {}) <==> AnswersAgree(env, past[src.at], src)
  {
    SourceIsSound(env, past, src);
    IndexOfRowsExactly(env, past[src.at], src.rows, CompilePool.Successes(src.answers));
    hide IsIndexOf, Compile, LiveSubscriptions, Enumerates;
    forall i | 0 <= i < |src.rows|
      ensures Served(Found(CompilePool.Successes(src.answers), src.rows[i].triggerId))
              == Served(src.answers[src.rows[i].triggerId])
    {
    }
  }

  /** It suffices that every fetch succeeded and no listed trigger changed, as far as lookups tell, between the two kinds of read. */
  lemma SteadyTriggersGiveOneState(env: Env, past: seq<Db>, src: Source)
    requires ReadFrom(env, past, src) && PastKeyed(past) && Covers(src.answers, src.rows)
    requires forall i :: 0 <= i < |src.rows| ==> src.rows[i].triggerId !in src.lost
    requires forall t, i :: src.at < t < src.until && 0 <= i < |src.rows| ==>
               Served(Compile(env, past[t], src.rows[i].triggerId)) == Served(Compile(env, past[src.at], src.rows[i].triggerId))
    ensures IsIndexOf(env, past[src.at], Built(src), {})
  {
    SourceExactly(env, past, src);
    hide IsIndexOf, Compile, Served, LiveSubscriptions;
    forall i | 0 <= i < |src.rows|
      ensures Served(src.answers[src.rows[i].triggerId]) == Served(Compile(env, past[src.at], src.rows[i].triggerId))
    {
      var id := src.rows[i].triggerId;
      assert FetchedOrLost(env, past, src, id);
      var t :| src.at < t < src.until && t < |past| && src.answers[id] == Compile(env, past[t], id);
    }
  }

  /** Row by row, with no such assumption: what is served was subscribed then, and its trigger was enabled when read later. */
  lemma ServedPairsAreRecent(env: Env, past: seq<Db>, src: Source, asset: string, service: string, metricName: string,
                             wh: Webhook)
    requires ReadFrom(env, past, src) && PastKeyed(past) && ColonFree(service)
    requires wh in Lookup(Built(src), asset, service, metricName)
    ensures Subscription(asset, wh.trigger.id) in LiveSubscriptions(past[src.at])
    ensures wh.trigger.status == Enabled && ReadBetween(env, past, src.at, src.until, wh.trigger.id, Some(wh))
  {
    SourceIsSound(env, past, src);
    hide BuildIndex, Lookup, Compile, LiveSubscriptions;
    LookupServes(src.rows, CompilePool.Successes(src.answers), asset, service, metricName, wh);
    assert FetchedOrLost(env, past, src, wh.trigger.id);
  }

  // ---- A denied pair ----

  lemma {:induction false} PastLacks(env: Env, t: Tracked, steps: seq<Step>, sub: Subscription)
    requires Runs(env, t.service, steps) && StaysUnsubscribed(env, t.service, steps, sub)
    ensures var end := Follow(env, t, steps);
            |end.past| == |t.past| + |steps| && t.past <= end.past
            && forall k :: |t.past| <= k < |end.past| ==> sub !in end.past[k].subs
    decreases |steps|
  {
    if steps != [] {
      assert StaysUnsubscribed(env, R.Next(env, t.service, steps[0]), steps[1..], sub);
      PastLacks(env, Advance(env, t, steps[0]), steps[1..], sub);
    }
  }

  lemma {:induction false} LastReadOfRun(env: Env, t: Tracked, steps: seq<Step>)
    requires Runs(env, t.service, steps)
    ensures (exists i :: 0 <= i < |steps| && steps[i].ReadRows?) ==> Follow(env, t, steps).lastRead >= |t.past|
    ensures Follow(env, t, steps).lastRead >= t.lastRead || Follow(env, t, steps).lastRead >= |t.past|
    decreases |steps|
  {
    if steps != [] {
      LastReadOfRun(env, Advance(env, t, steps[0]), steps[1..]);
      if i :| 0 <= i < |steps| && steps[i].ReadRows? { assert i > 0 ==> steps[1..][i - 1] == steps[i]; }
    }
  }

  /**
   A pair is removed, whatever populate was under way and whichever reads fail:
   when populates do not overlap and one of them reads the subscriptions
   afterwards, the map served once no refresher is left does not offer the
   pair, unless it was subscribed again.
  */
  lemma DeniedPairLeaves(env: Env, t: Tracked, steps: seq<Step>, sub: Subscription)
    requires TrackOk(env, t) && AloneOk(t) && BreakerOk(env, t.service) && DebounceOk(t.service)
    requires Runs(env, t.service, steps) && ApartRun(env, t.service, steps) && StaysUnsubscribed(env, t.service, steps, sub)
    requires R.Run(env, t.service, steps).refreshers == map[]
    requires exists i :: 0 <= i < |steps| && steps[i].ReadRows?
    ensures !Offers(R.Run(env, t.service, steps).published, sub)
  {
    ServedSinceLastRequest(env, t, steps);
    TrackRun(env, t, steps);
    PastLacks(env, t, steps, sub);
    LastReadOfRun(env, t, steps);
    var end := Follow(env, t, steps);
    hide Follow, R.Run, Runs, ApartRun, AloneOk, BreakerOk, DebounceOk, StaysUnsubscribed, PastKeyed, ReadSince, HasReadFrom;
    ReadRowsLack(env, end.past, end.source, sub);
  }

  lemma ReadRowsLack(env: Env, past: seq<Db>, src: Source, sub: Subscription)
    requires ReadFrom(env, past, src) && PastKeyed(past) && sub !in past[src.at].subs
    ensures !Offers(Built(src), sub)
  {
    SourceIsSound(env, past, src);
    OffersExactly(src.rows, CompilePool.Successes(src.answers), sub);
  }
}
