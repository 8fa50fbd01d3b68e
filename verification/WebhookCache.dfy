/**
 The in-memory webhook cache as an object: it rebuilds its map from the
 repository and swaps it in whole (internal/services/webhookcache/webhook_cache.go).
*/
module WebhookCache {
  import opened Wrappers
  import opened Domain
  import opened Store
  import opened Repository
  import opened WebhookIndex
  import CompilePool

  /** Nanoseconds. */
  const DEFAULT_DEBOUNCE := 5_000_000_000

  datatype FetchError = NoWebhookConfig | ReadFailed

  /** The context of a call: reads under it fail once it is over. */
  class Context {
    var over: bool

    constructor ()
      ensures !over
    {
      over := false;
    }

    method End()
      modifies this
      ensures over
    {
      over := true;
    }
  }

  class Cache {
    var webhooks: Index
    var lastRefresh: int
    var schedule: bool
    /** What the refresher that is waiting will read under. */
    var refresherContext: Context?
    const debounce: int
    const buildWorkers: int
    const env: Env
    const repo: TriggersRepo
    /** How often a refresh was asked for. */
    ghost var requests: nat

    constructor (repo: TriggersRepo, env: Env, cacheDebounceTime: int, cacheBuildWorkers: int)
      ensures this.repo == repo && this.env == env && webhooks == map[] && !schedule && requests == 0 && refresherContext == null
      ensures debounce == if cacheDebounceTime != 0 then cacheDebounceTime else 5_000_000_000
      ensures buildWorkers == if cacheBuildWorkers >= 1 then cacheBuildWorkers else 2
    {
      this.repo, this.env := repo, env;
      webhooks, lastRefresh, schedule, requests, refresherContext := map[], 0, false, 0, null;
      debounce := if cacheDebounceTime == 0 then DEFAULT_DEBOUNCE else cacheDebounceTime;
      buildWorkers := if cacheBuildWorkers < 1 then CompilePool.DEFAULT_WORKERS else cacheBuildWorkers;
    }

    /** Trigger ids of the rows, each once, in no particular order. */
    method UniqueTriggerIds(rows: seq<Subscription>) returns (ids: seq<string>)
      ensures Distinct(ids)
      ensures forall id :: id in ids <==> exists i :: 0 <= i < |rows| && rows[i].triggerId == id
    {
      var unique: set<string> := {};
      for i := 0 to |rows|
        invariant forall id :: id in unique <==> exists k :: 0 <= k < i && rows[k].triggerId == id
      {
        unique := unique + {rows[i].triggerId};
      }
      ids := [];
      var left := unique;
      while left != {}
        invariant left <= unique && Enumerates(ids, unique - left)
        decreases |left|
      {
        var id :| id in left;
        left := left - {id};
        ids := ids + [id];
      }
      assert unique - left == unique;
    }

    /** The loop over the subscriptions that fills the nested maps. */
    method IndexRows(rows: seq<Subscription>, compiled: map<string, Webhook>) returns (newData: Index)
      ensures newData == BuildIndex(rows, compiled)
    {
      newData := map[];
      for i := 0 to |rows|
        invariant newData == BuildIndex(rows[..i], compiled)
      {
        assert rows[..i + 1][..i] == rows[..i];
        var sub := rows[i];
        if sub.triggerId in compiled && compiled[sub.triggerId].trigger.status == Enabled {
          var wh := compiled[sub.triggerId];
          if sub.asset !in newData {
            newData := newData[sub.asset := map[]];
          }
          var key := WebhookKey(wh.trigger.service, wh.trigger.metricName);
          var earlier := if key in newData[sub.asset] then newData[sub.asset][key] else [];
          newData := newData[sub.asset := newData[sub.asset][key := earlier + [wh]]];
        }
      }
      assert rows[..|rows|] == rows;
    }

    /** Reads the subscriptions, compiles their triggers in the pool, and indexes the rows; the fetches of `lost` fail. */
    method FetchVehicleWebhooks(ctx: Context, readFault: bool, lost: set<string>) returns (r: Result<Index, FetchError>)
      requires repo.Valid()
      ensures readFault || ctx.over ==> r == Err(ReadFailed)
      ensures !readFault && !ctx.over ==>
                && r != Err(ReadFailed)
                && IsIndexOf(env, repo.View(), if r.Ok? then r.value else map[], lost)
                && FollowsSomeOrder(env, repo.View(), if r.Ok? then r.value else map[], lost)
      ensures r.Ok? ==> r.value != map[]
    {
      ghost var view := repo.View();
      var subs := repo.InternalGetAllVehicleSubscriptions(readFault || ctx.over);
      if subs.Err? { return Err(ReadFailed); }
      var rows := subs.value;
      var ids := UniqueTriggerIds(rows);
      var db := Db(repo.triggers, repo.subs, repo.logs);
      var e := env;
      var compiled := CompilePool.CompileTriggersParallel(ids, buildWorkers, id => if id in lost then None else Compile(e, db, id));
      assert CompiledFrom(env, db, rows, lost, compiled);
      var newData := IndexRows(rows, compiled);
      RowsAreKeyed(db, repo.history, repo.max);
      BuiltIndexIsJoin(env, db, rows, lost, compiled);
      BuiltInOrder(env, db, rows, lost, compiled);
      r := if newData == map[] then Err(NoWebhookConfig) else Ok(newData);
    }

    /**
     After a populate over an unchanging database the cache is the index of
     that database, lookups following the order the subscriptions were read in;
     when the subscriptions cannot be read, and under a context that is over they
     cannot, it stays as it was.
    */
    method PopulateCache(ctx: Context, now: int, readFault: bool, lost: set<string>) returns (r: Result<(), FetchError>)
      requires repo.Valid()
      modifies this`webhooks, this`lastRefresh
      ensures r == if readFault || ctx.over then Err(ReadFailed) else Ok(())
      ensures r.Err? ==> webhooks == old(webhooks) && lastRefresh == old(lastRefresh)
      ensures r.Ok? ==> IsIndexOf(env, repo.View(), webhooks, lost)
                             && FollowsSomeOrder(env, repo.View(), webhooks, lost) && lastRefresh == now
    {
      var fetched := FetchVehicleWebhooks(ctx, readFault, lost);
      var next: Index := map[];
      match fetched {
        case Ok(index) => next := index;
        case Err(NoWebhookConfig) =>
        case Err(ReadFailed) => return Err(ReadFailed);
      }
      Update(next, now);
      r := Ok(());
    }

    method Update(newData: Index, now: int)
      modifies this`webhooks, this`lastRefresh
      ensures webhooks == newData && lastRefresh == now
    {
      webhooks := newData;
      lastRefresh := now;
    }

    function GetWebhooks(asset: string, service: string, metricName: string): seq<Webhook>
      reads this`webhooks
    {
      Lookup(webhooks, asset, service, metricName)
    }

    /** The compare-and-swap: true when this call started the refresher, which then reads under this call's context. */
    method ScheduleRefresh(ctx: Context) returns (spawned: bool)
      modifies this`schedule, this`requests, this`refresherContext
      ensures schedule && spawned == !old(schedule) && requests == old(requests) + 1
      ensures refresherContext == if spawned then ctx else old(refresherContext)
    {
      spawned := !schedule;
      if spawned { schedule, refresherContext := true, ctx; }
      requests := requests + 1;
    }

    /** The refresher, once its sleep is over. */
    method RunRefresher(now: int, readFault: bool, lost: set<string>)
      requires repo.Valid() && (schedule ==> refresherContext != null)
      modifies this`webhooks, this`lastRefresh, this`schedule
      ensures !schedule
      ensures old(schedule) && !readFault && !refresherContext.over ==>
                IsIndexOf(env, repo.View(), webhooks, lost) && FollowsSomeOrder(env, repo.View(), webhooks, lost)
      ensures !old(schedule) || readFault || refresherContext.over ==> webhooks == old(webhooks)
    {
      if schedule {
        schedule := false;
        var r := PopulateCache(refresherContext, now, readFault, lost);
      }
    }
  }

  lemma RowsAreKeyed(db: Db, history: seq<Op>, max: int)
    requires Invariant(db, history, max)
    ensures Keyed(db)
  {
  }
}
