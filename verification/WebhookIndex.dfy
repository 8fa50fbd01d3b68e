/**
 The two-level index that the webhook cache serves from, and the join of
 subscriptions and triggers it stands for
 (internal/services/webhookcache/webhook_cache.go).
*/
module WebhookIndex {
  import opened Wrappers
  import opened Domain
  import opened Store
  import opened Repository
  import opened Text

  datatype Webhook = Webhook(trigger: Trigger, program: Program)

  /** Asset, then "service:metric", then the webhooks in subscription order. */
  type Index = map<string, map<string, seq<Webhook>>>

  function WebhookKey(service: string, metricName: string): string { service + ":" + metricName }

  predicate ColonFree(s: string) { ':' !in s }

  /** One colon ends the service, whatever the metric name contains. */
  lemma WebhookKeyInjective(s1: string, m1: string, s2: string, m2: string)
    requires ColonFree(s1) && ColonFree(s2)
    ensures WebhookKey(s1, m1) == WebhookKey(s2, m2) <==> s1 == s2 && m1 == m2
  {
    assert WebhookKey(s1, m1) == s1 + [':'] + m1 && WebhookKey(s2, m2) == s2 + [':'] + m2;
    FirstSeparator(':', s1, m1, s2, m2);
  }

  /** A fetch and compile against one database. */
  function Compile(env: Env, db: Db, id: string): Option<Webhook> {
    match InternalGetTrigger(db, id)
    case Err(_) => None
    case Ok(t) =>
      match PrepareCondition(env, t.service, t.condition, BuilderValueType(env, t.service, t.metricName))
      case None => None
      case Some(program) => Some(Webhook(t, program))
  }

  /** The loop's step: a row without a compiled, enabled trigger is skipped. */
  function AddRow(index: Index, sub: Subscription, compiled: map<string, Webhook>): Index {
    if sub.triggerId !in compiled || compiled[sub.triggerId].trigger.status != Enabled then index
    else
      var wh := compiled[sub.triggerId];
      var byKey := if sub.asset in index then index[sub.asset] else map[];
      var key := WebhookKey(wh.trigger.service, wh.trigger.metricName);
      index[sub.asset := byKey[key := (if key in byKey then byKey[key] else []) + [wh]]]
  }

  function BuildIndex(rows: seq<Subscription>, compiled: map<string, Webhook>): Index {
    if rows == [] then map[]
    else AddRow(BuildIndex(rows[..|rows| - 1], compiled), rows[|rows| - 1], compiled)
  }

  function Lookup(index: Index, asset: string, service: string, metricName: string): seq<Webhook> {
    if asset !in index then []
    else if WebhookKey(service, metricName) !in index[asset] then []
    else index[asset][WebhookKey(service, metricName)]
  }

  // ---- The reference: select the rows, one by one ----

  predicate Selected(sub: Subscription, compiled: map<string, Webhook>, asset: string, service: string, metricName: string) {
    && sub.asset == asset && sub.triggerId in compiled
    && var t := compiled[sub.triggerId].trigger;
       t.status == Enabled && t.service == service && t.metricName == metricName
  }

  function Matching(rows: seq<Subscription>, compiled: map<string, Webhook>, asset: string, service: string,
                    metricName: string): seq<Webhook> {
    if rows == [] then []
    else
      var sub := rows[|rows| - 1];
      Matching(rows[..|rows| - 1], compiled, asset, service, metricName)
        + if Selected(sub, compiled, asset, service, metricName) then [compiled[sub.triggerId]] else []
  }

  ghost predicate KnownServices(compiled: map<string, Webhook>) {
    forall id :: id in compiled ==> ColonFree(compiled[id].trigger.service)
  }

  /** The index answers every lookup with the selected rows, in row order: also when there are none. */
  lemma {:induction false} LookupIsMatching(rows: seq<Subscription>, compiled: map<string, Webhook>, asset: string,
                                            service: string, metricName: string)
    requires KnownServices(compiled) && ColonFree(service)
    ensures Lookup(BuildIndex(rows, compiled), asset, service, metricName)
              == Matching(rows, compiled, asset, service, metricName)
  {
    if rows != [] {
      var sub := rows[|rows| - 1];
      LookupIsMatching(rows[..|rows| - 1], compiled, asset, service, metricName);
      if sub.triggerId in compiled {
        var t := compiled[sub.triggerId].trigger;
        WebhookKeyInjective(t.service, t.metricName, service, metricName);
      }
    }
  }

  /** An asset has an entry exactly when one of its rows was indexed. */
  lemma {:induction false} EmptyIndex(rows: seq<Subscription>, compiled: map<string, Webhook>)
    ensures BuildIndex(rows, compiled) == map[] <==>
            forall i :: 0 <= i < |rows| ==>
              rows[i].triggerId !in compiled || compiled[rows[i].triggerId].trigger.status != Enabled
  {
    if rows != [] {
      EmptyIndex(rows[..|rows| - 1], compiled);
      var sub := rows[|rows| - 1];
      var rest := BuildIndex(rows[..|rows| - 1], compiled);
      if sub.triggerId in compiled && compiled[sub.triggerId].trigger.status == Enabled {
        assert sub.asset in AddRow(rest, sub, compiled);
      } else {
        assert forall i :: 0 <= i < |rows| - 1 ==> rows[..|rows| - 1][i] == rows[i];
      }
    }
  }

  /** Where the elements of a lookup come from. */
  lemma {:induction false} MatchingFrom(rows: seq<Subscription>, compiled: map<string, Webhook>, asset: string,
                                        service: string, metricName: string, wh: Webhook)
    ensures wh in Matching(rows, compiled, asset, service, metricName) <==>
            exists i :: 0 <= i < |rows| && Selected(rows[i], compiled, asset, service, metricName)
                        && compiled[rows[i].triggerId] == wh
  {
    if rows != [] {
      var n := |rows| - 1;
      var rest := Matching(rows[..n], compiled, asset, service, metricName);
      MatchingFrom(rows[..n], compiled, asset, service, metricName, wh);
      if wh in rest {
        var i :| 0 <= i < n && Selected(rows[..n][i], compiled, asset, service, metricName)
                 && compiled[rows[..n][i].triggerId] == wh;
        assert rows[i] == rows[..n][i];
      }
      if i :| 0 <= i < n && Selected(rows[i], compiled, asset, service, metricName) && compiled[rows[i].triggerId] == wh {
        assert rows[..n][i] == rows[i];
      }
    }
  }

  predicate DistinctIds(ws: seq<Webhook>) {
    forall i, j :: 0 <= i < j < |ws| ==> ws[i].trigger.id != ws[j].trigger.id
  }

  /** Distinct rows give distinct webhooks: the primary key has one row per asset and trigger. */
  lemma {:induction false} MatchingDistinct(rows: seq<Subscription>, compiled: map<string, Webhook>, asset: string,
                                            service: string, metricName: string)
    requires Distinct(rows)
    requires forall id :: id in compiled ==> compiled[id].trigger.id == id
    ensures DistinctIds(Matching(rows, compiled, asset, service, metricName))
  {
    if rows != [] {
      var n := |rows| - 1;
      var sub := rows[n];
      var rest := Matching(rows[..n], compiled, asset, service, metricName);
      assert DistinctIds(rest) by { MatchingDistinct(rows[..n], compiled, asset, service, metricName); }
      if Selected(sub, compiled, asset, service, metricName) {
        forall i | 0 <= i < |rest| ensures rest[i].trigger.id != sub.triggerId {
          MatchingFrom(rows[..n], compiled, asset, service, metricName, rest[i]);
          var k :| 0 <= k < n && Selected(rows[..n][k], compiled, asset, service, metricName)
                   && compiled[rows[..n][k].triggerId] == rest[i];
          assert rows[k] == rows[..n][k] && rows[k] != sub;
        }
        assert Matching(rows, compiled, asset, service, metricName) == rest + [compiled[sub.triggerId]];
      } else {
        assert Matching(rows, compiled, asset, service, metricName) == rest;
      }
    }
  }

  // ---- The index of a database ----

  /** The webhook is a row of the join: subscribed, enabled, on this service and metric, fetched and compiled. */
  predicate Offered(env: Env, db: Db, asset: string, service: string, metricName: string, wh: Webhook) {
    && Subscription(asset, wh.trigger.id) in db.subs
    && InternalGetTrigger(db, wh.trigger.id) == Ok(wh.trigger)
    && wh.trigger.status == Enabled && wh.trigger.service == service && wh.trigger.metricName == metricName
    && PrepareCondition(env, service, wh.trigger.condition, BuilderValueType(env, service, metricName)) == Some(wh.program)
  }

  /** Every lookup lists the offered webhooks, each once, but for the triggers whose fetch failed. */
  ghost predicate IsIndexOf(env: Env, db: Db, index: Index, lost: set<string>) {
    forall asset, service, metricName :: ColonFree(service) ==>
      LookupIsJoin(env, db, index, lost, asset, service, metricName)
  }

  ghost predicate LookupIsJoin(env: Env, db: Db, index: Index, lost: set<string>, asset: string, service: string,
                               metricName: string) {
    var ws := Lookup(index, asset, service, metricName);
    && (forall wh :: wh in ws <==> Offered(env, db, asset, service, metricName, wh) && wh.trigger.id !in lost)
    && DistinctIds(ws)
  }

  /** What the pool returned for these rows, when the fetches in `lost` failed and the others read this database. */
  ghost predicate CompiledFrom(env: Env, db: Db, rows: seq<Subscription>, lost: set<string>, compiled: map<string, Webhook>) {
    && (forall id :: id in compiled ==> id !in lost && Compile(env, db, id) == Some(compiled[id]))
    && (forall i :: 0 <= i < |rows| ==>
          rows[i].triggerId in compiled || rows[i].triggerId in lost || Compile(env, db, rows[i].triggerId) == None)
  }

  ghost predicate Keyed(db: Db) { forall id :: id in db.triggers ==> db.triggers[id].id == id }

  lemma CompiledServices(env: Env, db: Db, rows: seq<Subscription>, lost: set<string>, compiled: map<string, Webhook>)
    requires CompiledFrom(env, db, rows, lost, compiled)
    ensures KnownServices(compiled)
  {
  }

  /** A map built from one database's rows and triggers is the join of the two tables. */
  lemma BuiltIndexIsJoin(env: Env, db: Db, rows: seq<Subscription>, lost: set<string>, compiled: map<string, Webhook>)
    requires Keyed(db) && Enumerates(rows, LiveSubscriptions(db)) && CompiledFrom(env, db, rows, lost, compiled)
    ensures IsIndexOf(env, db, BuildIndex(rows, compiled), lost)
  {
    CompiledServices(env, db, rows, lost, compiled);
    assert forall id :: id in compiled ==> compiled[id].trigger.id == id;
    hide BuildIndex, Lookup, Matching, Selected, Offered, Compile, LiveSubscriptions;
    forall asset, service, metricName | ColonFree(service)
      ensures LookupIsJoin(env, db, BuildIndex(rows, compiled), lost, asset, service, metricName)
    {
      LookupIsMatching(rows, compiled, asset, service, metricName);
      MatchingDistinct(rows, compiled, asset, service, metricName);
      var ws := Matching(rows, compiled, asset, service, metricName);
      forall wh ensures wh in ws <==> Offered(env, db, asset, service, metricName, wh) && wh.trigger.id !in lost {
        MatchingFrom(rows, compiled, asset, service, metricName, wh);
        SelectedIsOffered(env, db, rows, lost, compiled, asset, service, metricName, wh);
      }
    }
  }

  lemma SelectedIsOffered(env: Env, db: Db, rows: seq<Subscription>, lost: set<string>, compiled: map<string, Webhook>,
                          asset: string, service: string, metricName: string, wh: Webhook)
    requires Keyed(db) && Enumerates(rows, LiveSubscriptions(db)) && CompiledFrom(env, db, rows, lost, compiled)
    ensures (exists i :: 0 <= i < |rows| && Selected(rows[i], compiled, asset, service, metricName)
                         && compiled[rows[i].triggerId] == wh)
            <==> Offered(env, db, asset, service, metricName, wh) && wh.trigger.id !in lost
  {
    if Offered(env, db, asset, service, metricName, wh) && wh.trigger.id !in lost {
      var sub := Subscription(asset, wh.trigger.id);
      assert sub in LiveSubscriptions(db);
      var i :| 0 <= i < |rows| && rows[i] == sub;
      assert Compile(env, db, sub.triggerId) == Some(wh);
      assert Selected(rows[i], compiled, asset, service, metricName);
    }
    if i :| 0 <= i < |rows| && Selected(rows[i], compiled, asset, service, metricName) && compiled[rows[i].triggerId] == wh {
      assert rows[i] in LiveSubscriptions(db);
    }
  }

  // ---- Pair by pair ----

  /** What an answer contributes to lookups: nothing unless its trigger is enabled. */
  function Served(answer: Option<Webhook>): Option<Webhook> {
    if answer.Some? && answer.value.trigger.status == Enabled then answer else None
  }

  function Found(compiled: map<string, Webhook>, id: string): Option<Webhook> {
    if id in compiled then Some(compiled[id]) else None
  }

  /** What a map built from these reads serves to a pair. */
  function ServedBy(rows: seq<Subscription>, compiled: map<string, Webhook>, sub: Subscription): Option<Webhook> {
    if sub in rows then Served(Found(compiled, sub.triggerId)) else None
  }

  /** What this database has for a pair. */
  function ServedIn(env: Env, db: Db, sub: Subscription): Option<Webhook> {
    if sub in LiveSubscriptions(db) then Served(Compile(env, db, sub.triggerId)) else None
  }

  /** Reads a builder can have: each row once, each webhook under its own id, services without a colon. */
  ghost predicate Sound(rows: seq<Subscription>, compiled: map<string, Webhook>) {
    && Distinct(rows)
    && (forall id :: id in compiled ==> compiled[id].trigger.id == id && ColonFree(compiled[id].trigger.service))
  }

  predicate IsOn(wh: Webhook, service: string, metricName: string) {
    wh.trigger.service == service && wh.trigger.metricName == metricName
  }

  lemma LookupServes(rows: seq<Subscription>, compiled: map<string, Webhook>, asset: string, service: string,
                     metricName: string, wh: Webhook)
    requires Sound(rows, compiled) && ColonFree(service)
    ensures wh in Lookup(BuildIndex(rows, compiled), asset, service, metricName)
            <==> ServedBy(rows, compiled, Subscription(asset, wh.trigger.id)) == Some(wh) && IsOn(wh, service, metricName)
  {
    LookupIsMatching(rows, compiled, asset, service, metricName);
    MatchingFrom(rows, compiled, asset, service, metricName, wh);
    hide BuildIndex, Lookup, Matching;
    var sub := Subscription(asset, wh.trigger.id);
    if sub in rows {
      var i :| 0 <= i < |rows| && rows[i] == sub;
      assert Selected(rows[i], compiled, asset, service, metricName) && compiled[rows[i].triggerId] == wh
        <==> Served(Found(compiled, sub.triggerId)) == Some(wh) && IsOn(wh, service, metricName);
    }
  }

  lemma JoinServes(env: Env, db: Db, asset: string, service: string, metricName: string, wh: Webhook)
    requires Keyed(db)
    ensures Offered(env, db, asset, service, metricName, wh)
            <==> ServedIn(env, db, Subscription(asset, wh.trigger.id)) == Some(wh) && IsOn(wh, service, metricName)
  {
    hide PrepareCondition, BuilderValueType;
  }

  lemma ServedPair(env: Env, db: Db, rows: seq<Subscription>, compiled: map<string, Webhook>, sub: Subscription)
    requires Sound(rows, compiled) && Keyed(db)
    ensures ServedBy(rows, compiled, sub).Some? ==>
              var t := ServedBy(rows, compiled, sub).value.trigger; t.id == sub.triggerId && ColonFree(t.service)
    ensures ServedIn(env, db, sub).Some? ==>
              var t := ServedIn(env, db, sub).value.trigger; t.id == sub.triggerId && ColonFree(t.service)
  {
    assert ColonFree(SERVICE_SIGNAL) && ColonFree(SERVICE_EVENT);
  }

  /**
   Whatever was read when: the map built from these reads is the index of a
   database exactly when it serves every pair what the database has for it.
  */
  lemma IndexExactly(env: Env, db: Db, rows: seq<Subscription>, compiled: map<string, Webhook>)
    requires Sound(rows, compiled) && Keyed(db)
    ensures IsIndexOf(env, db, BuildIndex(rows, compiled), {})
            <==> forall sub :: ServedBy(rows, compiled, sub) == ServedIn(env, db, sub)
  {
    var index := BuildIndex(rows, compiled);
    forall asset, service, metricName, wh | ColonFree(service)
      ensures wh in Lookup(index, asset, service, metricName)
              <==> ServedBy(rows, compiled, Subscription(asset, wh.trigger.id)) == Some(wh) && IsOn(wh, service, metricName)
      ensures Offered(env, db, asset, service, metricName, wh)
              <==> ServedIn(env, db, Subscription(asset, wh.trigger.id)) == Some(wh) && IsOn(wh, service, metricName)
    {
      LookupServes(rows, compiled, asset, service, metricName, wh);
      JoinServes(env, db, asset, service, metricName, wh);
    }
    hide BuildIndex, Lookup, Offered, ServedBy, ServedIn;
    if IsIndexOf(env, db, index, {}) {
      forall sub ensures ServedBy(rows, compiled, sub) == ServedIn(env, db, sub) {
        ServedPair(env, db, rows, compiled, sub);
        if ServedBy(rows, compiled, sub).Some? {
          var wh := ServedBy(rows, compiled, sub).value;
          assert LookupIsJoin(env, db, index, {}, sub.asset, wh.trigger.service, wh.trigger.metricName);
        }
        if ServedIn(env, db, sub).Some? {
          var wh := ServedIn(env, db, sub).value;
          assert LookupIsJoin(env, db, index, {}, sub.asset, wh.trigger.service, wh.trigger.metricName);
        }
      }
    }
    if forall sub :: ServedBy(rows, compiled, sub) == ServedIn(env, db, sub) {
      forall asset, service, metricName | ColonFree(service)
        ensures LookupIsJoin(env, db, index, {}, asset, service, metricName)
      {
        LookupIsMatching(rows, compiled, asset, service, metricName);
        MatchingDistinct(rows, compiled, asset, service, metricName);
      }
    }
  }

  /** For the rows of the database itself, only the triggers they name are to be compared. */
  lemma IndexOfRowsExactly(env: Env, db: Db, rows: seq<Subscription>, compiled: map<string, Webhook>)
    requires Sound(rows, compiled) && Keyed(db) && Enumerates(rows, LiveSubscriptions(db))
    ensures IsIndexOf(env, db, BuildIndex(rows, compiled), {})
            <==> forall i :: 0 <= i < |rows| ==>
                   Served(Found(compiled, rows[i].triggerId)) == Served(Compile(env, db, rows[i].triggerId))
  {
    IndexExactly(env, db, rows, compiled);
    hide IsIndexOf, BuildIndex, Served, Found, Compile, LiveSubscriptions;
    assert forall sub :: sub in rows <==> sub in LiveSubscriptions(db);
    forall i | 0 <= i < |rows|
      ensures ServedBy(rows, compiled, rows[i]) == Served(Found(compiled, rows[i].triggerId))
      ensures ServedIn(env, db, rows[i]) == Served(Compile(env, db, rows[i].triggerId))
    {
    }
  }

  ghost predicate Offers(index: Index, sub: Subscription) {
    exists k, wh: Webhook :: sub.asset in index && k in index[sub.asset] && wh in index[sub.asset][k] && wh.trigger.id == sub.triggerId
  }

  lemma AddRowOffers(index: Index, row: Subscription, compiled: map<string, Webhook>, sub: Subscription)
    requires forall id :: id in compiled ==> compiled[id].trigger.id == id
    ensures Offers(AddRow(index, row, compiled), sub)
            <==> Offers(index, sub) || (row == sub && Served(Found(compiled, sub.triggerId)).Some?)
  {
    var index' := AddRow(index, row, compiled);
    if k, wh: Webhook :| sub.asset in index && k in index[sub.asset] && wh in index[sub.asset][k]
                         && wh.trigger.id == sub.triggerId {
      assert sub.asset in index' && k in index'[sub.asset] && wh in index'[sub.asset][k];
    }
    if Served(Found(compiled, row.triggerId)).Some? {
      var wh := compiled[row.triggerId];
      var key := WebhookKey(wh.trigger.service, wh.trigger.metricName);
      assert row.asset in index' && key in index'[row.asset] && wh in index'[row.asset][key];
      if k, w: Webhook :| sub.asset in index' && k in index'[sub.asset] && w in index'[sub.asset][k]
                          && w.trigger.id == sub.triggerId {
        assert (sub.asset in index && k in index[sub.asset] && w in index[sub.asset][k]) || (row.asset == sub.asset && w == wh);
      }
    }
  }

  /** A built map offers a pair, under whatever key, exactly when it serves the pair something. */
  lemma {:induction false} OffersExactly(rows: seq<Subscription>, compiled: map<string, Webhook>, sub: Subscription)
    requires forall id :: id in compiled ==> compiled[id].trigger.id == id
    ensures Offers(BuildIndex(rows, compiled), sub) <==> ServedBy(rows, compiled, sub).Some?
  {
    if rows != [] {
      var n := |rows| - 1;
      OffersExactly(rows[..n], compiled, sub);
      AddRowOffers(BuildIndex(rows[..n], compiled), rows[n], compiled, sub);
      assert rows == rows[..n] + [rows[n]];
    }
  }

  // ---- Order ----

  /** The webhooks of one lookup, row by row from the database. */
  function Serving(env: Env, db: Db, rows: seq<Subscription>, lost: set<string>, asset: string, service: string,
                   metricName: string): seq<Webhook> {
    if rows == [] then []
    else
      var sub := rows[|rows| - 1];
      var answer := if sub.triggerId in lost then None else Served(Compile(env, db, sub.triggerId));
      Serving(env, db, rows[..|rows| - 1], lost, asset, service, metricName)
        + if sub.asset == asset && answer.Some? && IsOn(answer.value, service, metricName) then [answer.value] else []
  }

  /** Every lookup lists its webhooks in the order of these rows. */
  ghost predicate InOrder(env: Env, db: Db, rows: seq<Subscription>, lost: set<string>, index: Index) {
    forall asset, service, metricName :: ColonFree(service) ==>
      Lookup(index, asset, service, metricName) == Serving(env, db, rows, lost, asset, service, metricName)
  }

  /** Lookups follow one listing of the live subscriptions. */
  ghost predicate FollowsSomeOrder(env: Env, db: Db, index: Index, lost: set<string>) {
    exists rows :: Enumerates(rows, LiveSubscriptions(db)) && InOrder(env, db, rows, lost, index)
  }

  lemma {:induction false} MatchingIsServing(env: Env, db: Db, rows: seq<Subscription>, lost: set<string>,
                                             compiled: map<string, Webhook>, asset: string, service: string, metricName: string)
    requires CompiledFrom(env, db, rows, lost, compiled)
    ensures Matching(rows, compiled, asset, service, metricName) == Serving(env, db, rows, lost, asset, service, metricName)
  {
    if rows != [] {
      var n := |rows| - 1;
      assert forall i :: 0 <= i < n ==> rows[..n][i] == rows[i];
      MatchingIsServing(env, db, rows[..n], lost, compiled, asset, service, metricName);
      hide Compile;
    }
  }

  lemma BuiltInOrder(env: Env, db: Db, rows: seq<Subscription>, lost: set<string>, compiled: map<string, Webhook>)
    requires CompiledFrom(env, db, rows, lost, compiled)
    ensures InOrder(env, db, rows, lost, BuildIndex(rows, compiled))
  {
    CompiledServices(env, db, rows, lost, compiled);
    forall asset, service, metricName | ColonFree(service)
      ensures Lookup(BuildIndex(rows, compiled), asset, service, metricName)
              == Serving(env, db, rows, lost, asset, service, metricName)
    {
      LookupIsMatching(rows, compiled, asset, service, metricName);
      MatchingIsServing(env, db, rows, lost, compiled, asset, service, metricName);
    }
  }
}
