/**
 What a refresh can publish when the tables move under it: runs, from the empty
 database on, that end quiescent with a map of no single state
 (internal/services/webhookcache/webhook_cache.go).
*/
module TornRefresh {
  import opened Wrappers
  import opened Domain
  import opened Store
  import opened Repository
  import opened WebhookIndex
  import opened R = RefreshProtocol
  import opened RefreshHistory
  import CompilePool
  import H = Handlers

  /** Following a run with one more step is one more advance. */
  lemma {:induction false} FollowMore(env: Env, t: Tracked, steps: seq<Step>, step: Step)
    requires Runs(env, t.service, steps) && CalmRun(env, t.service, steps)
    requires var mid := Follow(env, t, steps).service; CanStep(mid, step) && Undisturbed(mid, step)
    ensures Runs(env, t.service, steps + [step]) && CalmRun(env, t.service, steps + [step])
    ensures Follow(env, t, steps + [step]) == Advance(env, Follow(env, t, steps), step)
    decreases |steps|
  {
    if steps == [] {
      assert (steps + [step])[1..] == [];
    } else {
      assert (steps + [step])[1..] == steps[1..] + [step];
      FollowMore(env, Advance(env, t, steps[0]), steps[1..], step);
    }
  }

  /** A live, enabled trigger with room for one more failure. */
  predicate CanFailOnce(env: Env, db: Db, id: string) {
    && id != "" && id in db.triggers && db.triggers[id].owner != "" && db.triggers[id].status == Enabled
    && db.triggers[id].failures + 1 < env.maxFailures && db.triggers[id].failures < INT4_MAX
  }

  function Failure(db: Db, id: string): H.Step
    requires id in db.triggers
  {
    H.Write(Increment(id, db.triggers[id].owner))
  }

  /** A failure shows in the row and nowhere else. */
  lemma FailureShows(env: Env, s: H.State, id: string)
    requires H.HandlersOk(env, s) && CanFailOnce(env, s.db, id)
    ensures H.Next(env, s, Failure(s.db, id)).db
            == s.db.(triggers := s.db.triggers[id := s.db.triggers[id].(failures := s.db.triggers[id].failures + 1)])
  {
    assert RowOk(s.db.triggers[id], id, s.history, env.maxFailures);
    IncrementCommits(s.db, s.history, id, s.db.triggers[id].owner, env.maxFailures);
  }

  lemma EnabledIsServed(env: Env, s: H.State, sub: Subscription)
    requires H.HandlersOk(env, s) && sub in s.db.subs && sub.triggerId != "" && H.StatusIs(s.db, sub.triggerId, Enabled)
    ensures ServedIn(env, s.db, sub).Some? && ServedIn(env, s.db, sub).value.trigger == s.db.triggers[sub.triggerId]
    ensures Compile(env, s.db, sub.triggerId) == ServedIn(env, s.db, sub)
  {
    assert H.Accepted(env, s.db.triggers[sub.triggerId]);
  }

  /** The pair's trigger is the same row in two states, if a map with the row of one agrees with the other. */
  lemma AgreeingRow(env: Env, fetched: H.State, s: H.State, src: Source, sub: Subscription)
    requires H.HandlersOk(env, fetched) && H.HandlersOk(env, s) && AgreesWith(env, s.db, src)
    requires sub in src.rows && sub in s.db.subs && sub in fetched.db.subs && sub.triggerId != ""
    requires H.StatusIs(s.db, sub.triggerId, Enabled) && H.StatusIs(fetched.db, sub.triggerId, Enabled)
    requires sub.triggerId in src.answers && src.answers[sub.triggerId] == Compile(env, fetched.db, sub.triggerId)
    ensures s.db.triggers[sub.triggerId] == fetched.db.triggers[sub.triggerId]
  {
    EnabledIsServed(env, fetched, sub);
    EnabledIsServed(env, s, sub);
    assert ServedBy(src.rows, CompilePool.Successes(src.answers), sub) == ServedIn(env, s.db, sub);
    hide H.HandlersOk, Compile, ServedIn;
  }

  /** Two subscribed triggers that fail one after the other, and the states before, between and after. */
  ghost predicate TwoFailures(env: Env, a: Subscription, b: Subscription, s0: H.State, s1: H.State, s2: H.State) {
    && H.HandlersOk(env, s0) && H.HandlersOk(env, s1) && H.HandlersOk(env, s2)
    && a.triggerId != b.triggerId && a in s0.db.subs && b in s0.db.subs
    && CanFailOnce(env, s0.db, a.triggerId) && CanFailOnce(env, s0.db, b.triggerId)
    && s1 == H.Next(env, s0, Failure(s0.db, a.triggerId)) && b.triggerId in s1.db.triggers
    && s2 == H.Next(env, s1, Failure(s1.db, b.triggerId))
  }

  lemma TheyFail(env: Env, a: Subscription, b: Subscription, s0: H.State) returns (s1: H.State, s2: H.State)
    requires env.maxFailures >= 1 && H.HandlersOk(env, s0) && a.triggerId != b.triggerId && a in s0.db.subs && b in s0.db.subs
    requires CanFailOnce(env, s0.db, a.triggerId) && CanFailOnce(env, s0.db, b.triggerId)
    ensures TwoFailures(env, a, b, s0, s1, s2)
  {
    s1 := H.Next(env, s0, Failure(s0.db, a.triggerId));
    FailureShows(env, s0, a.triggerId);
    H.NextKeeps(env, s0, Failure(s0.db, a.triggerId));
    hide H.Next, H.HandlersOk;
    s2 := H.Next(env, s1, Failure(s1.db, b.triggerId));
    H.NextKeeps(env, s1, Failure(s1.db, b.triggerId));
  }

  /** The reads of a populate that fetched `a` before and `b` after both failures. */
  ghost predicate TornReads(env: Env, src: Source, a: Subscription, b: Subscription, s0: H.State, s2: H.State) {
    && src.rows == [a, b]
    && src.answers == map[a.triggerId := Compile(env, s0.db, a.triggerId), b.triggerId := Compile(env, s2.db, b.triggerId)]
  }

  /** No state agrees with such reads. */
  lemma NoStateAgrees(env: Env, s0: H.State, s1: H.State, s2: H.State, a: Subscription, b: Subscription, src: Source)
    requires TwoFailures(env, a, b, s0, s1, s2) && TornReads(env, src, a, b, s0, s2)
    ensures forall db :: db in {s0.db, s1.db, s2.db} ==> !AgreesWith(env, db, src)
  {
    FailureShows(env, s0, a.triggerId);
    FailureShows(env, s1, b.triggerId);
    hide AgreesWith, Compile, H.HandlersOk, H.Next;
    assert a in src.rows && b in src.rows;
    if AgreesWith(env, s0.db, src) { AgreeingRow(env, s2, s0, src, b); }
    if AgreesWith(env, s1.db, src) { AgreeingRow(env, s0, s1, src, a); }
    if AgreesWith(env, s2.db, src) { AgreeingRow(env, s0, s2, src, a); }
  }

  // ---- The run ----

  /** A calm run so far. */
  ghost predicate Calm(env: Env, t: Tracked, steps: seq<Step>) {
    Runs(env, t.service, steps) && CalmRun(env, t.service, steps)
  }

  lemma Stepped(env: Env, t: Tracked, steps: seq<Step>, step: Step) returns (steps': seq<Step>)
    requires Calm(env, t, steps)
    requires var mid := Follow(env, t, steps).service; CanStep(mid, step) && Undisturbed(mid, step)
    ensures Calm(env, t, steps') && Follow(env, t, steps') == Advance(env, Follow(env, t, steps), step)
  {
    FollowMore(env, t, steps, step);
    steps' := steps + [step];
  }

  /** The service one tick on. */
  function Ticked(s: Service, refreshers: map<nat, Phase>): Service {
    s.(refreshers := refreshers, tick := s.tick + 1)
  }

  lemma RequestEffect(env: Env, t: Tracked, c: nat)
    requires !t.service.flag && t.service.refreshers == map[]
    ensures var s := t.service;
            && CanStep(s, Request(0, c)) && Undisturbed(s, Request(0, c))
            && Advance(env, t, Request(0, c))
               == t.(service := Ticked(s, map[0 := Sleeping]).(flag := true, dirty := false, lastRequest := s.tick,
                                                              contexts := s.contexts[0 := c]),
                     past := t.past + [s.store.db])
  {
  }

  lemma WakeEffect(env: Env, t: Tracked)
    requires t.service.flag && t.service.refreshers == map[0 := Sleeping]
    ensures var s := t.service;
            && CanStep(s, Wake(0)) && Undisturbed(s, Wake(0))
            && Advance(env, t, Wake(0)) == t.(service := Ticked(s, map[0 := Awake]), past := t.past + [s.store.db])
  {
  }

  lemma ClearEffect(env: Env, t: Tracked)
    requires t.service.refreshers == map[0 := Awake]
    ensures var s := t.service;
            && CanStep(s, Clear(0)) && Undisturbed(s, Clear(0))
            && Advance(env, t, Clear(0))
               == t.(service := Ticked(s, map[0 := Cleared]).(flag := false), past := t.past + [s.store.db])
  {
  }

  lemma ReadRowsEffect(env: Env, t: Tracked, rows: seq<Subscription>)
    requires t.service.refreshers == map[0 := Cleared] && Enumerates(rows, LiveSubscriptions(t.service.store.db))
    requires Alive(t.service, 0)
    ensures var s := t.service;
            && CanStep(s, ReadRows(0, rows)) && Undisturbed(s, ReadRows(0, rows))
            && Advance(env, t, ReadRows(0, rows))
               == t.(service := Ticked(s, map[0 := Populating(rows, map[])]).(lastBegin := s.tick),
                     past := t.past + [s.store.db], begun := t.begun[0 := Reading(|t.past|, {})], lastRead := |t.past|)
  {
    hide Enumerates, LiveSubscriptions;
  }

  lemma FetchEffect(env: Env, t: Tracked, i: nat)
    requires Alive(t.service, 0)
    requires t.service.refreshers.Keys == {0} && t.service.refreshers[0].Populating? && i < |t.service.refreshers[0].rows|
    requires t.service.refreshers[0].rows[i].triggerId !in t.service.refreshers[0].answers
    ensures var s := t.service; var p := s.refreshers[0]; var id := p.rows[i].triggerId;
            && CanStep(s, ReadTrigger(0, id, false)) && Undisturbed(s, ReadTrigger(0, id, false))
            && var t' := Advance(env, t, ReadTrigger(0, id, false));
               t' == t.(service := Ticked(s, map[0 := Populating(p.rows, p.answers[id := Compile(env, s.store.db, id)])]),
                        past := t.past + [s.store.db], begun := t'.begun)
               && t'.begun.Keys == t.begun.Keys
  {
    hide Compile;
  }

  lemma StoreEffect(env: Env, t: Tracked, st: H.Step)
    ensures var s, t' := t.service, Advance(env, t, Store(st));
            && CanStep(s, Store(st)) && Undisturbed(s, Store(st))
            && t' == t.(service := t'.service, past := t.past + [s.store.db])
            && t'.service == Ticked(s, s.refreshers).(store := H.Next(env, s.store, st), dirty := t'.service.dirty)
  {
    hide H.Next;
  }

  lemma PublishEffect(env: Env, t: Tracked)
    requires t.service.refreshers.Keys == {0} && AllAnswered(t.service.refreshers[0]) && 0 in t.begun
    ensures var s, t' := t.service, Advance(env, t, Publish(0)); var p := s.refreshers[0];
            && CanStep(s, Publish(0)) && Undisturbed(s, Publish(0))
            && t'.service == Ticked(s, map[]).(published := t'.service.published)
            && t'.past == t.past + [s.store.db] && t'.source == Source(p.rows, p.answers, t.begun[0].lost, t.begun[0].at, |t.past|)
  {
    hide BuildIndex;
  }

  lemma Woken(env: Env, t: Tracked, c: nat) returns (steps: seq<Step>)
    requires !t.service.flag && t.service.refreshers == map[]
    ensures Calm(env, t, steps)
    ensures var mid, s := Follow(env, t, steps), t.service;
            && mid.service == s.(flag := true, dirty := false, refreshers := map[0 := Awake], tick := s.tick + 2,
                                 lastRequest := s.tick, contexts := s.contexts[0 := c])
            && mid.past == t.past + [s.store.db, s.store.db] && mid.begun == t.begun
  {
    assert Calm(env, t, []) && Follow(env, t, []) == t;
    hide Calm, Follow, Advance, CanStep, Undisturbed;
    RequestEffect(env, t, c);
    steps := Stepped(env, t, [], Request(0, c));
    WakeEffect(env, Follow(env, t, steps));
    steps := Stepped(env, t, steps, Wake(0));
  }

  /** A refresh under a live context, from its request to the read of the subscriptions. */
  lemma Opened(env: Env, t: Tracked, rows: seq<Subscription>, c: nat) returns (steps: seq<Step>)
    requires !t.service.flag && t.service.refreshers == map[] && Enumerates(rows, LiveSubscriptions(t.service.store.db))
    requires c !in t.service.ended
    ensures Calm(env, t, steps)
    ensures var mid, s := Follow(env, t, steps), t.service;
            && mid.service.store == s.store && mid.service.refreshers == map[0 := Populating(rows, map[])]
            && mid.service.lastRequest == s.tick && Alive(mid.service, 0)
            && mid.past == t.past + [s.store.db, s.store.db] + [s.store.db] + [s.store.db] && 0 in mid.begun
  {
    steps := Woken(env, t, c);
    hide Enumerates, LiveSubscriptions, Calm, Follow, Advance, CanStep, Undisturbed;
    ClearEffect(env, Follow(env, t, steps));
    steps := Stepped(env, t, steps, Clear(0));
    ReadRowsEffect(env, Follow(env, t, steps), rows);
    steps := Stepped(env, t, steps, ReadRows(0, rows));
  }

  /** The only populate fetches one of its triggers. */
  lemma Fetched(env: Env, t: Tracked, first: seq<Step>, i: nat) returns (steps: seq<Step>)
    requires Calm(env, t, first) && Alive(Follow(env, t, first).service, 0)
    requires var refreshers := Follow(env, t, first).service.refreshers;
             && refreshers.Keys == {0} && refreshers[0].Populating? && i < |refreshers[0].rows|
             && refreshers[0].rows[i].triggerId !in refreshers[0].answers
    ensures Calm(env, t, steps)
    ensures var mid, end := Follow(env, t, first), Follow(env, t, steps);
            var p := mid.service.refreshers[0]; var id := p.rows[i].triggerId;
            && end.service == Ticked(mid.service, map[0 := Populating(p.rows, p.answers[id := Compile(env, mid.service.store.db, id)])])
            && end.past == mid.past + [mid.service.store.db] && end.begun.Keys == mid.begun.Keys
  {
    FetchEffect(env, Follow(env, t, first), i);
    hide Calm, Follow, Advance, CanStep, Undisturbed, Compile;
    var id := Follow(env, t, first).service.refreshers[0].rows[i].triggerId;
    steps := Stepped(env, t, first, ReadTrigger(0, id, false));
  }

  lemma Written(env: Env, t: Tracked, first: seq<Step>, st: H.Step) returns (steps: seq<Step>)
    requires Calm(env, t, first)
    ensures Calm(env, t, steps)
    ensures var mid, end := Follow(env, t, first), Follow(env, t, steps); var s := mid.service;
            && end.service == Ticked(s, s.refreshers).(store := H.Next(env, s.store, st), dirty := end.service.dirty)
            && end.past == mid.past + [s.store.db] && end.begun == mid.begun
  {
    StoreEffect(env, Follow(env, t, first), st);
    hide Calm, Follow, Advance, CanStep, Undisturbed, H.Next;
    steps := Stepped(env, t, first, Store(st));
  }

  lemma Published(env: Env, t: Tracked, first: seq<Step>) returns (steps: seq<Step>)
    requires Calm(env, t, first)
    requires var mid := Follow(env, t, first);
             mid.service.refreshers.Keys == {0} && AllAnswered(mid.service.refreshers[0]) && 0 in mid.begun
    ensures Calm(env, t, steps)
    ensures var mid, end := Follow(env, t, first), Follow(env, t, steps); var p := mid.service.refreshers[0];
            && end.service.refreshers == map[] && end.service.store == mid.service.store
            && end.service.lastRequest == mid.service.lastRequest
            && end.past == mid.past + [mid.service.store.db]
            && end.source.rows == p.rows && end.source.answers == p.answers
  {
    PublishEffect(env, Follow(env, t, first));
    hide Calm, Follow, Advance, CanStep, Undisturbed;
    steps := Stepped(env, t, first, Publish(0));
  }

  /** The first trigger is fetched, then the first fails. */
  lemma FetchedThenFailed(env: Env, t: Tracked, first: seq<Step>, a: Subscription, b: Subscription, s1: H.State)
    returns (steps: seq<Step>)
    requires Calm(env, t, first)
    requires var mid := Follow(env, t, first); var s0 := mid.service.store;
             && mid.service.refreshers == map[0 := Populating([a, b], map[])] && Alive(mid.service, 0)
             && a.triggerId in s0.db.triggers && s1 == H.Next(env, s0, Failure(s0.db, a.triggerId))
    ensures Calm(env, t, steps)
    ensures var mid, end := Follow(env, t, first), Follow(env, t, steps); var s0 := mid.service.store;
            && end.service.refreshers == map[0 := Populating([a, b], map[a.triggerId := Compile(env, s0.db, a.triggerId)])]
            && end.service.store == s1 && end.service.lastRequest == mid.service.lastRequest
            && end.past == mid.past + [s0.db] + [s0.db] && end.begun.Keys == mid.begun.Keys && Alive(end.service, 0)
  {
    var s0 := Follow(env, t, first).service.store;
    hide Calm, Follow, Advance, CanStep, Undisturbed, H.Next, Compile, Failure;
    steps := Fetched(env, t, first, 0);
    steps := Written(env, t, steps, Failure(s0.db, a.triggerId));
  }

  /** Then the second fails and is fetched. */
  lemma FailedThenFetched(env: Env, t: Tracked, first: seq<Step>, a: Subscription, b: Subscription, answer: Option<Webhook>,
                          s2: H.State)
    returns (steps: seq<Step>)
    requires Calm(env, t, first) && a.triggerId != b.triggerId
    requires var mid := Follow(env, t, first); var s1 := mid.service.store;
             && mid.service.refreshers == map[0 := Populating([a, b], map[a.triggerId := answer])] && 0 in mid.begun
             && Alive(mid.service, 0)
             && b.triggerId in s1.db.triggers && s2 == H.Next(env, s1, Failure(s1.db, b.triggerId))
    ensures Calm(env, t, steps)
    ensures var mid, end := Follow(env, t, first), Follow(env, t, steps); var s1 := mid.service.store;
            && end.service.refreshers
               == map[0 := Populating([a, b], map[a.triggerId := answer, b.triggerId := Compile(env, s2.db, b.triggerId)])]
            && end.service.store == s2 && end.service.lastRequest == mid.service.lastRequest
            && end.past == mid.past + [s1.db] + [s2.db] && end.begun.Keys == mid.begun.Keys
  {
    var s1 := Follow(env, t, first).service.store;
    hide Calm, Follow, Advance, CanStep, Undisturbed, H.Next, Compile, Failure;
    steps := Written(env, t, first, Failure(s1.db, b.triggerId));
    steps := Fetched(env, t, steps, 1);
  }

  /** Among these reads and these states there is no agreement, so the map is the index of none of them. */
  lemma NoneOfThese(env: Env, past: seq<Db>, src: Source, states: seq<Db>, from: nat, dbs: set<Db>)
    requires ReadFrom(env, past, src) && PastKeyed(past) && PastKeyed(states)
    requires forall k :: from < k < |states| ==> states[k] in dbs
    requires forall db :: db in dbs ==> !AgreesWith(env, db, src)
    ensures !IsIndexSince(env, states, from, Built(src))
  {
    SomeStateExactly(env, past, src, states, from);
  }

  lemma NoneAgree(env: Env, end: Tracked, a: Subscription, b: Subscription, s0: H.State, s1: H.State, s2: H.State)
    requires TwoFailures(env, a, b, s0, s1, s2) && TornReads(env, end.source, a, b, s0, s2)
    requires BuiltFrom(env, end.past, end.source, end.service.published) && PastKeyed(end.past) && PastKeyed(States(end))
    requires forall k :: end.service.lastRequest < k < |States(end)| ==> States(end)[k] in {s0.db, s1.db, s2.db}
    ensures !IsIndexSince(env, States(end), end.service.lastRequest, end.service.published)
  {
    hide PastKeyed, AgreesWith, IsIndexSince, TwoFailures, TornReads, ReadFrom, States;
    NoStateAgrees(env, s0, s1, s2, a, b, end.source);
    NoneOfThese(env, end.past, end.source, States(end), end.service.lastRequest, {s0.db, s1.db, s2.db});
  }

  lemma Sources(env: Env, t: Tracked, steps: seq<Step>)
    requires TrackOk(env, t) && BreakerOk(env, t.service) && Runs(env, t.service, steps)
    ensures var end := Follow(env, t, steps);
            BuiltFrom(env, end.past, end.source, end.service.published) && PastKeyed(end.past) && PastKeyed(States(end))
  {
    TrackRun(env, t, steps);
    hide BreakerOk, Runs, R.Run, Follow, BuiltFrom, PastKeyed, HasReadFrom;
  }

  /** The databases before each step of the torn run. */
  function AllStates(past: seq<Db>, d0: Db, d1: Db, d2: Db): seq<Db> {
    past + [d0, d0] + [d0] + [d0] + [d0] + [d0] + [d1] + [d2] + [d2]
  }

  lemma StatesOfTheRun(past: seq<Db>, d0: Db, d1: Db, d2: Db)
    ensures var all := AllStates(past, d0, d1, d2) + [d2]; forall k :: |past| <= k < |all| ==> all[k] in {d0, d1, d2}
  {
  }

  lemma TornHalf(env: Env, t: Tracked, a: Subscription, b: Subscription, s1: H.State, c: nat) returns (steps: seq<Step>)
    requires c !in t.service.ended
    requires !t.service.flag && t.service.refreshers == map[] && Enumerates([a, b], LiveSubscriptions(t.service.store.db))
    requires var s0 := t.service.store; a.triggerId in s0.db.triggers && s1 == H.Next(env, s0, Failure(s0.db, a.triggerId))
    ensures Calm(env, t, steps)
    ensures var mid, s0 := Follow(env, t, steps), t.service.store;
            && mid.service.refreshers == map[0 := Populating([a, b], map[a.triggerId := Compile(env, s0.db, a.triggerId)])]
            && mid.service.store == s1 && mid.service.lastRequest == t.service.tick && 0 in mid.begun
            && Alive(mid.service, 0)
            && mid.past == t.past + [s0.db, s0.db] + [s0.db] + [s0.db] + [s0.db] + [s0.db]
  {
    hide Calm, Follow, H.Next, Compile, Failure, LiveSubscriptions, Enumerates;
    steps := Opened(env, t, [a, b], c);
    steps := FetchedThenFailed(env, t, steps, a, b, s1);
  }

  lemma Finished(env: Env, t: Tracked, first: seq<Step>, a: Subscription, b: Subscription, answer: Option<Webhook>, s2: H.State)
    returns (steps: seq<Step>)
    requires Calm(env, t, first) && a.triggerId != b.triggerId
    requires var mid := Follow(env, t, first); var s1 := mid.service.store;
             && mid.service.refreshers == map[0 := Populating([a, b], map[a.triggerId := answer])] && 0 in mid.begun
             && Alive(mid.service, 0)
             && b.triggerId in s1.db.triggers && s2 == H.Next(env, s1, Failure(s1.db, b.triggerId))
    ensures Calm(env, t, steps)
    ensures var mid, end := Follow(env, t, first), Follow(env, t, steps); var s1 := mid.service.store;
            && end.service.refreshers == map[] && end.service.store == s2 && end.service.lastRequest == mid.service.lastRequest
            && end.past == mid.past + [s1.db] + [s2.db] + [s2.db]
            && end.source.rows == [a, b]
            && end.source.answers == map[a.triggerId := answer, b.triggerId := Compile(env, s2.db, b.triggerId)]
  {
    hide Calm, Follow, H.Next, Compile, Failure;
    steps := FailedThenFetched(env, t, first, a, b, answer, s2);
    steps := Published(env, t, steps);
  }

  lemma TornRun(env: Env, t: Tracked, a: Subscription, b: Subscription, s1: H.State, s2: H.State, c: nat)
    returns (steps: seq<Step>)
    requires c !in t.service.ended
    requires !t.service.flag && t.service.refreshers == map[] && Enumerates([a, b], LiveSubscriptions(t.service.store.db))
    requires TwoFailures(env, a, b, t.service.store, s1, s2)
    ensures Calm(env, t, steps)
    ensures var end := Follow(env, t, steps);
            && end.service.refreshers == map[] && end.service.lastRequest == t.service.tick
            && TornReads(env, end.source, a, b, t.service.store, s2) && end.service.store == s2
            && end.past == AllStates(t.past, t.service.store.db, s1.db, s2.db)
  {
    var s0 := t.service.store;
    assert a.triggerId in s0.db.triggers;
    hide Calm, Follow, H.Next, H.HandlersOk, Compile, Failure, CanFailOnce, LiveSubscriptions, Enumerates;
    steps := TornHalf(env, t, a, b, s1, c);
    steps := Finished(env, t, steps, a, b, Compile(env, s0.db, a.triggerId), s2);
  }

  /**
   Two subscribed triggers, the first fetched, a failure of each, the second
   fetched: under a live context, a calm run ends quiescent with a map that is the index of no
   database state since the request.
  */
  lemma TornMap(env: Env, t: Tracked, a: Subscription, b: Subscription, c: nat) returns (steps: seq<Step>)
    requires TrackOk(env, t) && BreakerOk(env, t.service) && c !in t.service.ended
    requires !t.service.flag && t.service.refreshers == map[]
    requires a.triggerId != b.triggerId && LiveSubscriptions(t.service.store.db) == {a, b}
    requires CanFailOnce(env, t.service.store.db, a.triggerId) && CanFailOnce(env, t.service.store.db, b.triggerId)
    ensures Runs(env, t.service, steps) && CalmRun(env, t.service, steps)
    ensures var end := Follow(env, t, steps);
            && end.service.refreshers == map[] && end.service.lastRequest == t.service.tick
            && !IsIndexSince(env, States(end), end.service.lastRequest, end.service.published)
  {
    var s0 := t.service.store;
    assert a in LiveSubscriptions(s0.db) && b in LiveSubscriptions(s0.db);
    assert Enumerates([a, b], LiveSubscriptions(s0.db)) by { assert [a, b][0] == a && [a, b][1] == b; }
    var s1, s2 := TheyFail(env, a, b, s0);
    assert |t.past| == t.service.tick;
    hide TrackOk, BreakerOk, Follow, TwoFailures, TornReads, IsIndexSince, LiveSubscriptions, Enumerates,
         BuiltFrom, PastKeyed, Runs, CalmRun;
    steps := TornRun(env, t, a, b, s1, s2, c);
    StatesOfTheRun(t.past, s0.db, s1.db, s2.db);
    hide AllStates;
    Sources(env, t, steps);
    NoneAgree(env, Follow(env, t, steps), a, b, s0, s1, s2);
  }

  // ---- From the empty database ----

  /** A deployment in which every condition compiles. */
  const ACCEPTING := Env(map[], (text, valueType) => Some(Program(text)), text => Some(Program(text)), url => true, 5)

  function Brake(name: string): H.RegisterRequest {
    H.RegisterRequest("events", "HarshBraking", "true", 0, "", name, "https://hooks", "enabled")
  }

  function BrakeRow(id: string, name: string): Trigger { NewTrigger(id, H.ToCreate(Brake(name), "dev"), Enabled) }

  /** Registering a trigger and subscribing a vehicle to it. */
  function Subscribing(id: string, name: string, asset: string): seq<H.Step> {
    [H.Register(id, Brake(name), "dev", true), H.ReadForSubscribe(0, id, "dev", asset, true), H.Commit(0)]
  }

  predicate IsNew(db: Db, id: string, name: string, asset: string) {
    id != "" && name != "" && asset != "" && id !in db.triggers && !NameTaken(db, id, "dev", name)
  }

  lemma Registered(s: H.State, id: string, name: string, asset: string)
    requires s.pending == map[] && IsNew(s.db, id, name, asset)
    ensures var s' := H.Next(ACCEPTING, s, H.Register(id, Brake(name), "dev", true));
            s'.pending == map[] && s'.db == s.db.(triggers := s.db.triggers[id := BrakeRow(id, name)])
  {
  }

  lemma SubscribingWorks(s: H.State, id: string, name: string, asset: string)
    requires s.pending == map[] && IsNew(s.db, id, name, asset) && Subscription(asset, id) !in s.db.subs
    ensures var s' := H.Run(ACCEPTING, s, Subscribing(id, name, asset));
            && s'.pending == map[]
            && s'.db == s.db.(triggers := s.db.triggers[id := BrakeRow(id, name)], subs := s.db.subs + {Subscription(asset, id)})
  {
    var run := Subscribing(id, name, asset);
    var s1 := H.Next(ACCEPTING, s, run[0]);
    Registered(s, id, name, asset);
    var s2 := H.Next(ACCEPTING, s1, run[1]);
    assert s2 == s1.(pending := map[0 := AddSubscription(asset, id)]);
    var s3 := H.Next(ACCEPTING, s2, run[2]);
    assert s3.db == Subscribe(s1.db, asset, id).db;
    hide H.Next;
    assert run[1..][1..] == [run[2]] && run[1..][1..][1..] == [];
    assert H.Run(ACCEPTING, s2, [run[2]]) == s3;
  }

  lemma {:induction false} RunOn(env: Env, s: H.State, first: seq<H.Step>, rest: seq<H.Step>)
    ensures H.Run(env, s, first + rest) == H.Run(env, H.Run(env, s, first), rest)
    decreases |first|
  {
    if first == [] {
      assert first + rest == rest;
    } else {
      assert (first + rest)[1..] == first[1..] + rest;
      RunOn(env, H.Next(env, s, first[0]), first[1..], rest);
    }
  }

  const FIRST := Subscribing("t1", "one", "car")
  const BOTH := FIRST + Subscribing("t2", "two", "car")

  const ONE_TRIGGER := Db(map["t1" := BrakeRow("t1", "one")], {Subscription("car", "t1")}, [])
  const TWO_TRIGGERS := Db(map["t1" := BrakeRow("t1", "one"), "t2" := BrakeRow("t2", "two")],
                           {Subscription("car", "t1"), Subscription("car", "t2")}, [])

  lemma ReachedStores()
    ensures forall steps :: H.HandlersOk(ACCEPTING, H.Run(ACCEPTING, H.INITIAL, steps))
  {
    forall steps ensures H.HandlersOk(ACCEPTING, H.Run(ACCEPTING, H.INITIAL, steps)) {
      H.EveryRunKeeps(ACCEPTING, H.INITIAL, steps);
    }
  }

  lemma OneSubscribed()
    ensures var s := H.Run(ACCEPTING, H.INITIAL, FIRST); s.db == ONE_TRIGGER && s.pending == map[]
  {
    SubscribingWorks(H.INITIAL, "t1", "one", "car");
  }

  lemma SecondIsNew()
    ensures IsNew(ONE_TRIGGER, "t2", "two", "car") && Subscription("car", "t2") !in ONE_TRIGGER.subs
  {
    assert "t2"[1] != "t1"[1] && "two"[0] != "one"[0];
    assert ONE_TRIGGER.triggers["t1"].displayName == "one";
  }

  lemma TwoSubscribed()
    ensures H.Run(ACCEPTING, H.INITIAL, BOTH).db == TWO_TRIGGERS
  {
    OneSubscribed();
    SecondIsNew();
    hide H.Run, IsNew, BrakeRow;
    SubscribingWorks(H.Run(ACCEPTING, H.INITIAL, FIRST), "t2", "two", "car");
    RunOn(ACCEPTING, H.INITIAL, FIRST, Subscribing("t2", "two", "car"));
  }

  /** Start-up reads its one database. */
  lemma BootedFrom(env: Env, store: H.State, rows: seq<Subscription>) returns (answers: map<string, Option<Webhook>>)
    requires Enumerates(rows, LiveSubscriptions(store.db))
    ensures BootReads(env, store.db, rows, answers)
  {
    hide Compile, Enumerates, LiveSubscriptions;
    answers := map sub | sub in rows :: sub.triggerId := Compile(env, store.db, sub.triggerId);
  }

  lemma TwoCanFail()
    ensures var a, b := Subscription("car", "t1"), Subscription("car", "t2");
            && a.triggerId != b.triggerId && LiveSubscriptions(TWO_TRIGGERS) == {a, b}
            && Enumerates([a, b], LiveSubscriptions(TWO_TRIGGERS))
            && CanFailOnce(ACCEPTING, TWO_TRIGGERS, "t1") && CanFailOnce(ACCEPTING, TWO_TRIGGERS, "t2")
  {
    var a, b := Subscription("car", "t1"), Subscription("car", "t2");
    assert "t2"[1] != "t1"[1];
    assert LiveSubscriptions(TWO_TRIGGERS) == {a, b};
    assert [a, b][0] == a && [a, b][1] == b;
  }

  lemma OneIsOffered()
    ensures var sub := Subscription("car", "t1");
            && LiveSubscriptions(ONE_TRIGGER) == {sub} && Enumerates([sub], LiveSubscriptions(ONE_TRIGGER))
            && Offered(ACCEPTING, ONE_TRIGGER, "car", SERVICE_EVENT, "HarshBraking",
                       Webhook(BrakeRow("t1", "one"), Program("true")))
  {
    var sub := Subscription("car", "t1");
    assert LiveSubscriptions(ONE_TRIGGER) == {sub} && [sub][0] == sub;
  }

  /** From the empty database, two registrations, two subscriptions and start-up lead to such a torn map. */
  lemma TornMapHappens() returns (t: Tracked, steps: seq<Step>)
    ensures t.service.store == H.Run(ACCEPTING, H.INITIAL, BOTH)
    ensures Runs(ACCEPTING, t.service, steps) && CalmRun(ACCEPTING, t.service, steps)
    ensures var end := Follow(ACCEPTING, t, steps);
            && end.service.refreshers == map[] && end.service.lastRequest == t.service.tick
            && !IsIndexSince(ACCEPTING, States(end), end.service.lastRequest, end.service.published)
  {
    var store := H.Run(ACCEPTING, H.INITIAL, BOTH);
    TwoSubscribed();
    ReachedStores();
    TwoCanFail();
    var a, b := Subscription("car", "t1"), Subscription("car", "t2");
    hide H.Run, H.HandlersOk, LiveSubscriptions, Enumerates, CanFailOnce, BootReads, TrackOk, DebounceOk, BreakerOk,
         IsIndexSince, Follow, BrakeRow;
    var answers := BootedFrom(ACCEPTING, store, [a, b]);
    StartUpIsTracked(ACCEPTING, store, [a, b], answers);
    t := Tracked(Boot(store, [a, b], answers), [store.db, store.db, store.db], map[], 1, Source([a, b], answers, {}, 1, 3));
    steps := TornMap(ACCEPTING, t, a, b, 0);
  }

  /** From the empty database, one registration, one subscription and start-up lead to an overlap that serves stale. */
  lemma OverlapHappens() returns (s: Service, steps: seq<Step>)
    ensures s.store == H.Run(ACCEPTING, H.INITIAL, FIRST) && Runs(ACCEPTING, s, steps)
    ensures var end := R.Run(ACCEPTING, s, steps);
            && end.refreshers == map[] && !end.dirty && !IsIndexOf(ACCEPTING, end.store.db, end.published, {})
  {
    var store := H.Run(ACCEPTING, H.INITIAL, FIRST);
    OneSubscribed();
    ReachedStores();
    OneIsOffered();
    var sub, row := Subscription("car", "t1"), BrakeRow("t1", "one");
    assert ColonFree(SERVICE_EVENT) && row.id == "t1";
    hide H.Run, H.HandlersOk, LiveSubscriptions, Enumerates, BootReads, Started, Offered, IsIndexOf, BrakeRow;
    var answers := BootedFrom(ACCEPTING, store, [sub]);
    BootStarts(ACCEPTING, store, [sub], answers);
    s := Boot(store, [sub], answers);
    steps := OverlapServesStale(ACCEPTING, s, sub, SERVICE_EVENT, "HarshBraking", Webhook(row, Program("true")), 0);
  }
}
