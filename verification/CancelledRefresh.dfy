/**
 Refreshes whose context ends. A refresher reads under the context of the request
 that started it, and a denial asks under the context of its fan-out, which is
 over as soon as the fan-out returns, while the refresher still sleeps
 (internal/controllers/metriclistener/signal.go:75-105,
 internal/services/webhookcache/webhook_cache.go:107-119).
*/
module CancelledRefresh {
  import opened Wrappers
  import opened Domain
  import opened Store
  import opened Repository
  import opened WebhookIndex
  import opened R = RefreshProtocol
  import CompilePool
  import H = Handlers
  import RefreshProgress
  import T = TornRefresh

  // ---- Reads that fail are reads under a context that is over ----

  predicate ReadsRows(step: Step) { step.ReadRows? || step.FailRows? }

  /** Whether a refresher has tried to read under a context that was over, since the last request. */
  ghost predicate CancelledSince(env: Env, s: Service, before: bool, steps: seq<Step>)
    requires Runs(env, s, steps)
    decreases |steps|
  {
    if steps == [] then before
    else
      var cancelled := (ReadsRows(steps[0]) || steps[0].ReadTrigger?) && !Alive(s, steps[0].r);
      CancelledSince(env, Next(env, s, steps[0]), !steps[0].Request? && (before || cancelled), steps[1..])
  }

  /** When nothing else goes wrong, the failures of a run are its cancelled reads. */
  lemma {:induction false} FailuresAreCancellations(env: Env, s: Service, before: bool, steps: seq<Step>)
    requires Runs(env, s, steps) && Faultless(env, s, steps)
    ensures FailedSince(before, steps) <==> CancelledSince(env, s, before, steps)
    decreases |steps|
  {
    if steps != [] {
      FailuresAreCancellations(env, Next(env, s, steps[0]), !steps[0].Request? && (before || Fails(steps[0])), steps[1..]);
      hide Next;
    }
  }

  // ---- What a populate publishes once its context is over ----

  /** It still publishes, from the subscriptions it read and from nothing but what it had fetched by then. */
  lemma {:induction false} CancelledPublish(env: Env, s: Service, r: nat, steps: seq<Step>)
    requires IsPopulating(s, r) && !Alive(s, r) && Runs(env, s, steps) && Publish(r) !in steps
    requires CanStep(Run(env, s, steps), Publish(r))
    ensures var p := s.refreshers[r];
            Next(env, Run(env, s, steps), Publish(r)).published == BuildIndex(p.rows, Compiled(p))
    decreases |steps|
  {
    if steps != [] {
      var step := steps[0];
      var s' := Next(env, s, step);
      CancelledStep(env, s, r, step);
      hide Next, CanStep, BuildIndex, Compiled;
      CancelledPublish(env, s', r, steps[1..]);
    }
  }

  lemma CancelledStep(env: Env, s: Service, r: nat, step: Step)
    requires IsPopulating(s, r) && !Alive(s, r) && CanStep(s, step) && step != Publish(r)
    ensures var s' := Next(env, s, step);
            && IsPopulating(s', r) && !Alive(s', r)
            && s'.refreshers[r].rows == s.refreshers[r].rows && Compiled(s'.refreshers[r]) == Compiled(s.refreshers[r])
  {
    hide H.Next, Compile, BuildIndex, Enumerates, LiveSubscriptions;
  }

  // ---- Exactly when a removed pair stays on offer ----

  ghost predicate Idle(s: Service) { forall r :: !IsPopulating(s, r) }

  predicate NoRows(steps: seq<Step>) { forall i :: 0 <= i < |steps| ==> !steps[i].ReadRows? }

  /** Every attempt to read the subscriptions came after its context was over. */
  ghost predicate AllReadsCancelled(env: Env, s: Service, steps: seq<Step>)
    requires Runs(env, s, steps)
    decreases |steps|
  {
    steps == [] ||
    ((ReadsRows(steps[0]) ==> !Alive(s, steps[0].r)) && AllReadsCancelled(env, Next(env, s, steps[0]), steps[1..]))
  }

  lemma {:induction false} NoRowsExactly(env: Env, s: Service, steps: seq<Step>)
    requires Runs(env, s, steps) && Faultless(env, s, steps)
    ensures NoRows(steps) <==> AllReadsCancelled(env, s, steps)
    decreases |steps|
  {
    if steps != [] {
      NoRowsExactly(env, Next(env, s, steps[0]), steps[1..]);
      assert NoRows(steps) <==> !steps[0].ReadRows? && NoRows(steps[1..]);
      hide Next;
    }
  }

  /** A run that ends with no refresher left has published exactly if a populate was under way or has begun. */
  lemma {:induction false} PopulatesPublish(env: Env, s: Service, steps: seq<Step>)
    requires Runs(env, s, steps) && Run(env, s, steps).refreshers == map[]
    ensures NoPublish(steps) <==> Idle(s) && NoRows(steps)
    decreases |steps|
  {
    if steps != [] {
      var step := steps[0];
      var s' := Next(env, s, step);
      PopulatesPublish(env, s', steps[1..]);
      assert NoPublish(steps) <==> !step.Publish? && NoPublish(steps[1..]);
      assert NoRows(steps) <==> !step.ReadRows? && NoRows(steps[1..]);
      assert step.Publish? ==> IsPopulating(s, step.r);
      forall r { PopulatingAfter(env, s, step, r); }
      hide Next, CanStep, IsPopulating, NoPublish, NoRows;
      if step.ReadRows? { assert IsPopulating(s', step.r); }
    }
  }

  lemma OfferedStep(env: Env, s: Service, step: Step, sub: Subscription)
    requires BreakerOk(env, s) && Unread(s, sub, {}) && CanStep(s, step) && sub !in Next(env, s, step).store.db.subs
    ensures var s' := Next(env, s, step);
            Unread(s', sub, {}) && (Offers(s'.published, sub) <==> Offers(s.published, sub) && !step.Publish?)
  {
    UnreadStep(env, s, step, sub, {});
    assert StillStale({}, step) == {};
    hide BreakerOk, Unread, Offers, H.Next, Compile, BuildIndex;
  }

  /** Until it is subscribed again, a removed pair that nobody has read is on offer exactly until the next publish. */
  lemma {:induction false} OfferedUntilPublish(env: Env, s: Service, steps: seq<Step>, sub: Subscription)
    requires BreakerOk(env, s) && Unread(s, sub, {}) && Runs(env, s, steps) && StaysUnsubscribed(env, s, steps, sub)
    ensures Offers(Run(env, s, steps).published, sub) <==> Offers(s.published, sub) && NoPublish(steps)
    decreases |steps|
  {
    if steps != [] {
      var step := steps[0];
      var s' := Next(env, s, step);
      assert StaysUnsubscribed(env, s', steps[1..], sub);
      assert NoPublish(steps) <==> !step.Publish? && NoPublish(steps[1..]);
      OfferedStep(env, s, step, sub);
      BreakerStep(env, s, step);
      hide Next, CanStep, BreakerOk, Offers, Unread, NoPublish;
      OfferedUntilPublish(env, s', steps[1..], sub);
    }
  }

  /**
   A pair is removed that no populate under way has read, and is not subscribed
   again: once no refresher is left the map offers it exactly if it did and no
   subscriptions have been read since. When nothing else goes wrong, that is
   exactly if every refresher's context was over before it read them.
  */
  lemma StillOfferedExactly(env: Env, s: Service, steps: seq<Step>, sub: Subscription)
    requires BreakerOk(env, s) && Unread(s, sub, {}) && Runs(env, s, steps) && StaysUnsubscribed(env, s, steps, sub)
    requires Run(env, s, steps).refreshers == map[]
    ensures Offers(Run(env, s, steps).published, sub) <==> Offers(s.published, sub) && Idle(s) && NoRows(steps)
    ensures Faultless(env, s, steps) ==> (NoRows(steps) <==> AllReadsCancelled(env, s, steps))
  {
    OfferedUntilPublish(env, s, steps, sub);
    PopulatesPublish(env, s, steps);
    if Faultless(env, s, steps) { NoRowsExactly(env, s, steps); }
  }

  // ---- A denial's own refresh ----

  /** The context is over when the subscriptions are first read; `over` says so of the start. */
  predicate OverAtRead(over: bool, c: nat, steps: seq<Step>)
    decreases |steps|
  {
    steps != [] && if ReadsRows(steps[0]) then over else OverAtRead(over || steps[0] == End(c), c, steps[1..])
  }

  predicate NoRequest(steps: seq<Step>) { forall i :: 0 <= i < |steps| ==> !steps[i].Request? }

  lemma ReadStep(env: Env, s: Service, r: nat, step: Step)
    requires s.refreshers.Keys <= {r} && !Waiting(s, r) && !IsCleared(s, r) && CanStep(s, step) && !step.Request?
    ensures var s' := Next(env, s, step);
            && !ReadsRows(step) && s'.refreshers.Keys <= {r} && !Waiting(s', r) && !IsCleared(s', r)
  {
    WaitingAfter(env, s, step, r);
    hide H.Next, Compile, BuildIndex, Enumerates, LiveSubscriptions;
  }

  /** Once the only refresher has read the subscriptions, or failed to, nobody reads them any more. */
  lemma {:induction false} NobodyReads(env: Env, s: Service, r: nat, steps: seq<Step>)
    requires s.refreshers.Keys <= {r} && !Waiting(s, r) && !IsCleared(s, r)
    requires Runs(env, s, steps) && NoRequest(steps)
    ensures NoRows(steps) && FailRows(r) !in steps
    decreases |steps|
  {
    if steps != [] {
      var step := steps[0];
      var s' := Next(env, s, step);
      assert !step.Request? && NoRequest(steps[1..]);
      ReadStep(env, s, r, step);
      hide Next, CanStep, Waiting, IsCleared;
      NobodyReads(env, s', r, steps[1..]);
    }
  }

  /** The only refresher, before it reads: it tries to read once, and succeeds exactly if its context is not over. */
  lemma {:induction false} LoneRefresher(env: Env, s: Service, r: nat, steps: seq<Step>)
    requires DebounceOk(s) && s.refreshers.Keys == {r} && !IsPopulating(s, r) && r in s.contexts
    requires Runs(env, s, steps) && NoRequest(steps) && Run(env, s, steps).refreshers == map[]
    ensures NoRows(steps) <==> FailRows(r) in steps
    ensures var c := s.contexts[r];
            Faultless(env, s, steps) ==> (FailRows(r) in steps <==> OverAtRead(c in s.ended, c, steps))
    decreases |steps|
  {
    var step := steps[0];
    var s' := Next(env, s, step);
    assert !step.Request? && NoRequest(steps[1..]);
    assert steps == [step] + steps[1..];
    assert NoRows(steps) <==> !step.ReadRows? && NoRows(steps[1..]);
    LoneStep(env, s, r, step);
    DebounceStep(env, s, step);
    hide Next, CanStep, Waiting, IsCleared, IsPopulating, NoRows, NoRequest, DebounceOk;
    if ReadsRows(step) {
      NobodyReads(env, s', r, steps[1..]);
    } else {
      LoneRefresher(env, s', r, steps[1..]);
    }
  }

  lemma LoneStep(env: Env, s: Service, r: nat, step: Step)
    requires DebounceOk(s) && s.refreshers.Keys == {r} && !IsPopulating(s, r) && r in s.contexts
    requires CanStep(s, step) && !step.Request?
    ensures var s' := Next(env, s, step);
            && (step.ReadRows? ==> step.r == r && Alive(s, r)) && (step.FailRows? ==> step.r == r)
            && if ReadsRows(step) then
                 s'.refreshers.Keys <= {r} && !Waiting(s', r) && !IsCleared(s', r)
               else
                 && s'.refreshers.Keys == {r} && !IsPopulating(s', r) && s'.contexts == s.contexts
                 && (s.contexts[r] in s'.ended <==> s.contexts[r] in s.ended || step == End(s.contexts[r]))
  {
    if step.Wake? { WakeFindsFlag(s, step.r); }
    WaitingAfter(env, s, step, r);
    PopulatingAfter(env, s, step, r);
    hide H.Next, Compile, BuildIndex, Enumerates, LiveSubscriptions, DebounceOk;
  }

  /**
   A denial asks for a refresh under its fan-out's context, and nobody asks
   again: once that refresher is gone the denied pair is still on offer exactly
   if its read of the subscriptions failed, and, when nothing else goes wrong,
   exactly if the fan-out had returned by then.
  */
  lemma DenialExactly(env: Env, s: Service, r: nat, c: nat, steps: seq<Step>, sub: Subscription)
    requires BreakerOk(env, s) && DebounceOk(s) && s.refreshers == map[] && sub !in s.store.db.subs
    requires Runs(env, Next(env, s, Request(r, c)), steps) && NoRequest(steps)
    requires StaysUnsubscribed(env, Next(env, s, Request(r, c)), steps, sub)
    requires Run(env, Next(env, s, Request(r, c)), steps).refreshers == map[]
    ensures var asked := Next(env, s, Request(r, c)); var end := Run(env, asked, steps);
            && (Offers(end.published, sub) <==> Offers(s.published, sub) && FailRows(r) in steps)
            && (Faultless(env, asked, steps) ==> (FailRows(r) in steps <==> OverAtRead(c in s.ended, c, steps)))
  {
    var asked := Next(env, s, Request(r, c));
    assert forall q :: !Waiting(s, q);
    assert asked.refreshers == map[r := Sleeping] && asked.contexts[r] == c && asked.ended == s.ended;
    assert asked.published == s.published && asked.store == s.store;
    BreakerStep(env, s, Request(r, c));
    DebounceStep(env, s, Request(r, c));
    hide BreakerOk, DebounceOk, Next, CanStep, Offers, Run, Runs, StaysUnsubscribed, NoRows, NoRequest, Faultless;
    assert forall q :: q in asked.refreshers ==> q == r;
    LoneRefresher(env, asked, r, steps);
    StillOfferedExactly(env, asked, steps, sub);
  }

  // ---- Runs in which a cancelled refresh loses something ----

  /** A run so far in which nothing else goes wrong. */
  ghost predicate Clean(env: Env, s: Service, steps: seq<Step>) { Runs(env, s, steps) && Faultless(env, s, steps) }

  lemma {:induction false} Onward(env: Env, s: Service, steps: seq<Step>, step: Step) returns (steps': seq<Step>)
    requires Clean(env, s, steps)
    requires var mid := Run(env, s, steps); CanStep(mid, step) && (Fails(step) ==> !Alive(mid, step.r))
    ensures steps' == steps + [step] && Clean(env, s, steps') && Run(env, s, steps') == Next(env, Run(env, s, steps), step)
    decreases |steps|
  {
    if steps == [] {
      steps' := [step];
      assert steps'[1..] == [];
    } else {
      var rest := Onward(env, Next(env, s, steps[0]), steps[1..], step);
      steps' := [steps[0]] + rest;
      assert steps'[1..] == rest;
    }
  }

  /** The only refresher sleeps until its context is over, and then fails to read: nothing is published. */
  lemma EndsUnread(env: Env, s: Service, first: seq<Step>, c: nat) returns (steps: seq<Step>)
    requires Clean(env, s, first)
    requires var mid := Run(env, s, first);
             mid.flag && mid.refreshers == map[0 := Sleeping] && 0 in mid.contexts && mid.contexts[0] == c
    ensures Clean(env, s, steps) && steps == first + [End(c), Wake(0), Clear(0), FailRows(0)]
    ensures var mid, end := Run(env, s, first), Run(env, s, steps);
            && end.refreshers == map[] && !end.flag && end.dirty == mid.dirty
            && end.store == mid.store && end.published == mid.published && end.ended == mid.ended + {c}
  {
    hide Clean, Run, H.Next, Compile, BuildIndex, Enumerates, LiveSubscriptions;
    steps := Onward(env, s, first, End(c));
    steps := Onward(env, s, steps, Wake(0));
    steps := Onward(env, s, steps, Clear(0));
    steps := Onward(env, s, steps, FailRows(0));
  }

  /**
   A denial whose fan-out returns within the debounce, as that of a single
   webhook does: no refresher is left, every write was announced, and the map
   still offers the denied pair.
  */
  lemma DeniedPairStillServed(env: Env, s: Service, sub: Subscription, c: nat) returns (steps: seq<Step>)
    requires s.refreshers == map[] && !s.flag && c !in s.ended && Offers(s.published, sub)
    requires sub in s.store.db.subs && sub.asset != "" && sub.triggerId != ""
    ensures steps == [Store(H.Write(RemoveSubscription(sub.asset, sub.triggerId))),
                      Request(0, c), End(c), Wake(0), Clear(0), FailRows(0)]
    ensures Clean(env, s, steps)
    ensures var end := Run(env, s, steps);
            && end.refreshers == map[] && !end.flag && !end.dirty
            && end.store.db == s.store.db.(subs := s.store.db.subs - {sub}) && Offers(end.published, sub)
  {
    RemovalWrites(env, s.store, sub);
    assert Clean(env, s, []) && Run(env, s, []) == s;
    hide Clean, Run, H.Next, Compile, BuildIndex, Enumerates, LiveSubscriptions, Offers;
    steps := Onward(env, s, [], Store(H.Write(RemoveSubscription(sub.asset, sub.triggerId))));
    steps := Onward(env, s, steps, Request(0, c));
    steps := EndsUnread(env, s, steps, c);
  }

  ghost predicate OffersSameAt(env: Env, db: Db, db': Db, asset: string, service: string, metricName: string) {
    forall wh :: Offered(env, db, asset, service, metricName, wh) <==> Offered(env, db', asset, service, metricName, wh)
  }

  /** The two databases offer the same. */
  ghost predicate OffersSame(env: Env, db: Db, db': Db) {
    forall asset, service, metricName :: ColonFree(service) ==> OffersSameAt(env, db, db', asset, service, metricName)
  }

  lemma StillJoinExactly(env: Env, db: Db, db': Db, index: Index, asset: string, service: string, metricName: string)
    requires LookupIsJoin(env, db, index, {}, asset, service, metricName)
    ensures LookupIsJoin(env, db', index, {}, asset, service, metricName)
            <==> OffersSameAt(env, db, db', asset, service, metricName)
  {
    hide Offered, Lookup, DistinctIds;
  }

  lemma StillIndexExactly(env: Env, db: Db, db': Db, index: Index)
    requires IsIndexOf(env, db, index, {})
    ensures IsIndexOf(env, db', index, {}) <==> OffersSame(env, db, db')
  {
    hide OffersSameAt, LookupIsJoin;
    forall asset, service, metricName | ColonFree(service)
      ensures LookupIsJoin(env, db', index, {}, asset, service, metricName)
              <==> OffersSameAt(env, db, db', asset, service, metricName)
    {
      StillJoinExactly(env, db, db', index, asset, service, metricName);
    }
  }

  /** A second request finds the flag set and starts nothing. */
  lemma Swallowed(env: Env, s: Service, st: H.Step, c: nat, live: nat) returns (steps: seq<Step>)
    requires s.refreshers == map[] && !s.flag && live != c
    ensures steps == [Request(0, c), Store(st), Request(1, live)] && Clean(env, s, steps)
    ensures var mid := Run(env, s, steps);
            && mid.flag && mid.refreshers == map[0 := Sleeping] && 0 in mid.contexts && mid.contexts[0] == c && !mid.dirty
            && mid.published == s.published && mid.store == H.Next(env, s.store, st) && mid.ended == s.ended
  {
    assert Clean(env, s, []) && Run(env, s, []) == s;
    hide Clean, Run, H.Next, Compile, BuildIndex, Enumerates, LiveSubscriptions;
    steps := Onward(env, s, [], Request(0, c));
    steps := Onward(env, s, steps, Store(st));
    steps := Onward(env, s, steps, Request(1, live));
  }

  /**
   While a refresher that will be cancelled waits, the flag swallows every other
   request: a write announced under a context that never ends is lost with the
   failed read, and the map is right only if the write changed nothing on offer.
  */
  lemma AnnouncedWriteLost(env: Env, s: Service, st: H.Step, c: nat, live: nat) returns (steps: seq<Step>)
    requires s.refreshers == map[] && !s.flag && c !in s.ended && live !in s.ended && live != c
    ensures steps == [Request(0, c), Store(st), Request(1, live), End(c), Wake(0), Clear(0), FailRows(0)]
    ensures Clean(env, s, steps)
    ensures var end := Run(env, s, steps);
            && end.refreshers == map[] && !end.flag && !end.dirty && live !in end.ended
            && end.published == s.published && end.store == H.Next(env, s.store, st)
            && (IsIndexOf(env, s.store.db, s.published, {}) ==>
                  (IsIndexOf(env, end.store.db, end.published, {}) <==> OffersSame(env, s.store.db, end.store.db)))
  {
    hide Clean, Run, Next, CanStep, H.Next, IsIndexOf, OffersSame;
    steps := Swallowed(env, s, st, c, live);
    steps := EndsUnread(env, s, steps, c);
    if IsIndexOf(env, s.store.db, s.published, {}) {
      StillIndexExactly(env, s.store.db, H.Next(env, s.store, st).db, s.published);
    }
  }

  lemma LoneCancelledStep(env: Env, s: Service, r: nat, step: Step)
    requires s.refreshers.Keys == {r} && IsPopulating(s, r) && CanStep(s, step) && RefreshProgress.IsMove(step)
    ensures var s' := Next(env, s, step);
            && s'.store == s.store && s'.flag == s.flag && s'.dirty == s.dirty
            && if step == Publish(r) then
                 s'.refreshers == map[] && s'.published == BuildIndex(s.refreshers[r].rows, Compiled(s.refreshers[r]))
               else
                 s'.refreshers.Keys == {r}
  {
    hide H.Next, Compile, BuildIndex, Enumerates, LiveSubscriptions;
  }

  /** Moves of the only refresher, a populate whose context is over: it loses what it has not fetched, and publishes. */
  lemma {:induction false} LoneCancelled(env: Env, s: Service, r: nat, steps: seq<Step>)
    requires s.refreshers.Keys == {r} && IsPopulating(s, r) && !Alive(s, r)
    requires Runs(env, s, steps) && (forall i :: 0 <= i < |steps| ==> RefreshProgress.IsMove(steps[i]))
    requires Run(env, s, steps).refreshers == map[]
    ensures var p, end := s.refreshers[r], Run(env, s, steps);
            && end.published == BuildIndex(p.rows, Compiled(p))
            && end.store == s.store && end.flag == s.flag && end.dirty == s.dirty
    decreases |steps|
  {
    var step := steps[0];
    var s' := Next(env, s, step);
    assert RefreshProgress.IsMove(step);
    LoneCancelledStep(env, s, r, step);
    if step == Publish(r) {
      NobodyMoves(env, s', steps[1..]);
    } else {
      CancelledStep(env, s, r, step);
      hide Next, CanStep, BuildIndex, Compiled;
      LoneCancelled(env, s', r, steps[1..]);
    }
  }

  lemma NobodyMoves(env: Env, s: Service, steps: seq<Step>)
    requires s.refreshers == map[] && Runs(env, s, steps)
    requires forall i :: 0 <= i < |steps| ==> RefreshProgress.IsMove(steps[i])
    ensures steps == []
  {
  }

  lemma {:induction false} RunOn(env: Env, s: Service, first: seq<Step>, rest: seq<Step>)
    requires Clean(env, s, first) && Clean(env, Run(env, s, first), rest)
    ensures Clean(env, s, first + rest) && Run(env, s, first + rest) == Run(env, Run(env, s, first), rest)
    decreases |first|
  {
    if first == [] {
      assert first + rest == rest;
    } else {
      assert (first + rest)[1..] == first[1..] + rest;
      RunOn(env, Next(env, s, first[0]), first[1..], rest);
    }
  }

  lemma NothingCompiled(rows: seq<Subscription>)
    ensures BuildIndex(rows, map[]) == map[]
  {
    EmptyIndex(rows, map[]);
  }

  lemma Awakes(env: Env, s: Service, c: nat) returns (steps: seq<Step>)
    requires s.refreshers == map[] && !s.flag
    ensures Clean(env, s, steps)
    ensures Run(env, s, steps) == s.(flag := true, dirty := false, refreshers := map[0 := Awake], tick := s.tick + 2,
                                     lastRequest := s.tick, contexts := s.contexts[0 := c])
  {
    assert Clean(env, s, []) && Run(env, s, []) == s;
    hide Clean, Run;
    steps := Onward(env, s, [], Request(0, c));
    steps := Onward(env, s, steps, Wake(0));
  }

  /** A refresh under a live context, up to its read of the subscriptions. */
  lemma ReadsSubscriptions(env: Env, s: Service, c: nat, rows: seq<Subscription>) returns (steps: seq<Step>)
    requires s.refreshers == map[] && !s.flag && c !in s.ended && Enumerates(rows, LiveSubscriptions(s.store.db))
    ensures Clean(env, s, steps)
    ensures var mid := Run(env, s, steps);
            && mid.refreshers == map[0 := Populating(rows, map[])] && 0 in mid.contexts && mid.contexts[0] == c
            && mid.store == s.store && !mid.flag && !mid.dirty
  {
    hide Clean, Run, H.Next, Compile, BuildIndex, Enumerates, LiveSubscriptions;
    steps := Awakes(env, s, c);
    steps := Onward(env, s, steps, Clear(0));
    steps := Onward(env, s, steps, ReadRows(0, rows));
  }

  lemma EndsEmpty(env: Env, s: Service, r: nat, rows: seq<Subscription>) returns (steps: seq<Step>)
    requires s.refreshers == map[r := Populating(rows, map[])] && !Alive(s, r)
    ensures Clean(env, s, steps)
    ensures var end := Run(env, s, steps);
            && end.refreshers == map[] && end.published == map[]
            && end.store == s.store && end.flag == s.flag && end.dirty == s.dirty
  {
    steps := RefreshProgress.ComesToRest(env, s);
    LoneCancelled(env, s, r, steps);
    NothingCompiled(rows);
    assert Compiled(s.refreshers[r]) == map[];
  }

  /**
   From any idle state, whatever is subscribed: a fan-out that returns between
   the read of the subscriptions and the first fetch leaves an empty map.
  */
  lemma MapIsEmptied(env: Env, s: Service, c: nat) returns (steps: seq<Step>)
    requires s.refreshers == map[] && !s.flag && c !in s.ended
    ensures Clean(env, s, steps)
    ensures var end := Run(env, s, steps);
            && end.refreshers == map[] && !end.flag && !end.dirty && end.store == s.store && end.published == map[]
  {
    var rows := RefreshProgress.SomeEnumeration(LiveSubscriptions(s.store.db));
    hide Clean, Run, Enumerates, LiveSubscriptions, BuildIndex;
    steps := ReadsSubscriptions(env, s, c, rows);
    steps := Onward(env, s, steps, End(c));
    var rest := EndsEmpty(env, Run(env, s, steps), 0, rows);
    RunOn(env, s, steps, rest);
    steps := steps + rest;
  }

  /** From the empty database, one registration, one subscription, start-up and a denial lead to such a pair. */
  lemma DeniedPairHappens() returns (s: Service, steps: seq<Step>)
    ensures s.store == H.Run(T.ACCEPTING, H.INITIAL, T.FIRST) && Clean(T.ACCEPTING, s, steps)
    ensures var sub, end := Subscription("car", "t1"), Run(T.ACCEPTING, s, steps);
            && end.refreshers == map[] && !end.flag && !end.dirty && sub !in end.store.db.subs && Offers(end.published, sub)
  {
    var store := H.Run(T.ACCEPTING, H.INITIAL, T.FIRST);
    T.OneSubscribed();
    T.ReachedStores();
    T.OneIsOffered();
    var sub, row := Subscription("car", "t1"), T.BrakeRow("t1", "one");
    assert ColonFree(SERVICE_EVENT) && row.id == "t1";
    hide H.Run, H.HandlersOk, LiveSubscriptions, Enumerates, BootReads, Offered, T.BrakeRow, Run, Clean;
    var answers := T.BootedFrom(T.ACCEPTING, store, [sub]);
    BootStarts(T.ACCEPTING, store, [sub], answers);
    s := Boot(store, [sub], answers);
    OfferedIsOffers(T.ACCEPTING, store.db, s.published, sub, SERVICE_EVENT, "HarshBraking", Webhook(row, Program("true")));
    steps := DeniedPairStillServed(T.ACCEPTING, s, sub, 0);
  }

  lemma OfferedIsOffers(env: Env, db: Db, index: Index, sub: Subscription, service: string, metricName: string,
                        wh: Webhook)
    requires IsIndexOf(env, db, index, {}) && ColonFree(service)
    requires Offered(env, db, sub.asset, service, metricName, wh) && wh.trigger.id == sub.triggerId
    ensures Offers(index, sub)
  {
    hide Offered;
    assert LookupIsJoin(env, db, index, {}, sub.asset, service, metricName);
    assert wh in Lookup(index, sub.asset, service, metricName);
  }
}
