/**
 The subscription handlers, one and many vehicles at a time
 (internal/controllers/webhook/vehicle_subscription_controller.go).
*/
module SubscriptionController {
  import opened Wrappers
  import opened Signals
  import opened Domain
  import opened Store
  import opened Repository
  import opened WebhookCache

  /** The access service: asset, developer, permissions asked for. */
  type Access = (string, string, seq<string>) -> Result<bool, Error>

  // ---- What a list of inserts comes to ----

  /** The insert of this entry can only fail on a row that is there already. */
  predicate Insertable(db: Db, id: string, asset: string, fault: bool) {
    asset != "" && id != "" && id in db.triggers && !fault
  }

  predicate ListedBefore(db: Db, id: string, assets: seq<string>, faults: nat -> bool, i: nat)
    requires i < |assets|
  {
    exists j :: 0 <= j < i && assets[j] == assets[i] && Insertable(db, id, assets[j], faults(j))
  }

  /** Entry i is reported as failed: refused, subscribed already, or listed before. */
  predicate Fails(db: Db, id: string, assets: seq<string>, faults: nat -> bool, i: nat)
    requires i < |assets|
  {
    || !Insertable(db, id, assets[i], faults(i))
    || Subscription(assets[i], id) in db.subs
    || ListedBefore(db, id, assets, faults, i)
  }

  /** The failed entries among the first n, in order. */
  function Failures(db: Db, id: string, assets: seq<string>, faults: nat -> bool, n: nat): seq<string>
    requires n <= |assets|
  {
    if n == 0 then []
    else Failures(db, id, assets, faults, n - 1) + if Fails(db, id, assets, faults, n - 1) then [assets[n - 1]] else []
  }

  /** Subscriptions the first n entries name, refused ones left out. */
  function Named(db: Db, id: string, assets: seq<string>, faults: nat -> bool, n: nat): set<Subscription>
    requires n <= |assets|
  {
    set i | 0 <= i < n && Insertable(db, id, assets[i], faults(i)) :: Subscription(assets[i], id)
  }

  /** A list fails nowhere exactly when it has no repeats, no refused entry, and names nobody subscribed. */
  lemma {:induction false} NoFailures(db: Db, id: string, assets: seq<string>, faults: nat -> bool, n: nat)
    requires n <= |assets|
    ensures Failures(db, id, assets, faults, n) == [] <==>
            && (forall i :: 0 <= i < n ==>
                  Insertable(db, id, assets[i], faults(i)) && Subscription(assets[i], id) !in db.subs)
            && (forall i, j :: 0 <= i < j < n ==> assets[i] != assets[j])
  {
    if n > 0 {
      NoFailures(db, id, assets, faults, n - 1);
      if Failures(db, id, assets, faults, n - 1) == [] && !Fails(db, id, assets, faults, n - 1) {
        forall i | 0 <= i < n - 1 ensures assets[i] != assets[n - 1] {
          assert Insertable(db, id, assets[i], faults(i));
        }
      }
    }
  }

  predicate FirstRefused(owner: string, assets: seq<string>, permissions: seq<string>, access: Access, i: int) {
    && 0 <= i < |assets| && access(assets[i], owner, permissions) != Ok(true)
    && forall k :: 0 <= k < i ==> access(assets[k], owner, permissions) == Ok(true)
  }

  /** The table once the first n entries have been inserted. */
  function Inserted(db: Db, id: string, assets: seq<string>, faults: nat -> bool, n: nat): Db
    requires n <= |assets|
  {
    db.(subs := db.subs + Named(db, id, assets, faults, n))
  }

  lemma InsertedNone(db: Db, id: string, assets: seq<string>, faults: nat -> bool)
    ensures Inserted(db, id, assets, faults, 0) == db && Failures(db, id, assets, faults, 0) == []
  {
  }

  /** An entry fails when it is refused or its row is there by then; otherwise it adds one row. */
  lemma InsertedNext(db: Db, id: string, assets: seq<string>, faults: nat -> bool, n: nat)
    requires n < |assets|
    ensures var subs, sub := Inserted(db, id, assets, faults, n).subs, Subscription(assets[n], id);
            && (Fails(db, id, assets, faults, n) <==> !Insertable(db, id, assets[n], faults(n)) || sub in subs)
            && Inserted(db, id, assets, faults, n + 1)
               == db.(subs := if Fails(db, id, assets, faults, n) then subs else subs + {sub})
  {
  }

  /** The next insert fails exactly when the entry counts as failed. */
  lemma InsertNext(db: Db, id: string, assets: seq<string>, faults: nat -> bool, n: nat)
    requires n < |assets|
    ensures var o := Subscribe(Inserted(db, id, assets, faults, n), assets[n], id);
            && (Fails(db, id, assets, faults, n) <==> faults(n) || o.result.Err?)
            && Inserted(db, id, assets, faults, n + 1)
               == (if faults(n) then Inserted(db, id, assets, faults, n) else o.db)
            && |Inserted(db, id, assets, faults, n + 1).subs|
               == |Inserted(db, id, assets, faults, n).subs| + (if Fails(db, id, assets, faults, n) then 0 else 1)
            && Failures(db, id, assets, faults, n + 1)
               == Failures(db, id, assets, faults, n) + if Fails(db, id, assets, faults, n) then [assets[n]] else []
  {
    InsertedNext(db, id, assets, faults, n);
    var before := Inserted(db, id, assets, faults, n);
    assert before == db.(subs := before.subs);
    hide Fails, Inserted;
  }

  /** The table once the first n entries have been deleted. */
  function Removed(db: Db, id: string, assets: seq<string>, faults: nat -> bool, n: nat): Db
    requires n <= |assets|
  {
    db.(subs := db.subs - Named(db, id, assets, faults, n))
  }

  /** The entries among the first n whose delete fails, in order: a row that is not there is no failure. */
  function Undeleted(assets: seq<string>, faults: nat -> bool, n: nat): seq<string>
    requires n <= |assets|
  {
    if n == 0 then []
    else Undeleted(assets, faults, n - 1) + if assets[n - 1] == "" || faults(n - 1) then [assets[n - 1]] else []
  }

  lemma RemoveNext(db: Db, id: string, assets: seq<string>, faults: nat -> bool, n: nat)
    requires n < |assets| && id != "" && id in db.triggers
    ensures Removed(db, id, assets, faults, 0) == db
    ensures Removed(db, id, assets, faults, n + 1)
            == if faults(n) then Removed(db, id, assets, faults, n)
               else Unsubscribe(Removed(db, id, assets, faults, n), id, assets[n]).db
    ensures Undeleted(assets, faults, n + 1)
            == Undeleted(assets, faults, n) + if assets[n] == "" || faults(n) then [assets[n]] else []
  {
  }

  class Controller {
    const repo: TriggersRepo
    const cache: Cache
    /** Requests run under the server's context. */
    const server: Context

    ghost predicate Valid()
      reads this, repo
    {
      repo.Valid() && cache.repo == repo
    }

    constructor (cache: Cache, server: Context)
      requires cache.repo.Valid()
      ensures Valid() && this.cache == cache && this.server == server
    {
      this.repo, this.cache, this.server := cache.repo, cache, server;
    }

    /** Only the owner of a live trigger passes; another developer's trigger looks absent. */
    method OwnerCheck(id: string, isUuid: bool, owner: string, fault: bool) returns (r: Result<Trigger, Error>)
      ensures r.Ok? <==> isUuid && !fault && GetTrigger(repo.View(), id, owner).Ok?
      ensures r.Ok? ==> r.value == repo.triggers[id] && r.value.owner == owner && r.value.status != Deleted
      ensures !isUuid ==> r == Err(Invalid)
      ensures r == Err(NotFound) <==> isUuid && !fault && GetTrigger(repo.View(), id, owner) == Err(NotFound)
    {
      if !isUuid { return Err(Invalid); }
      var found := repo.GetTriggerByIDAndDeveloperLicense(id, owner, fault);
      match found {
        case Ok(t) => return Ok(t);
        case Err(NotFound) => return Err(NotFound);
        case Err(_) => return Err(Internal);
      }
    }

    /** A vehicle is subscribed exactly when the owner asks, access is granted and the row is new. */
    method AssignVehicleToWebhook(id: string, isUuid: bool, owner: string, asset: string, access: Access,
                                  readFault: bool, writeFault: bool) returns (r: Result<(), Error>)
      requires Valid()
      modifies repo, cache`schedule, cache`requests, cache`refresherContext
      ensures Valid()
      ensures r.Ok? <==>
              && isUuid && !readFault && GetTrigger(old(repo.View()), id, owner).Ok?
              && asset != "" && !writeFault && Subscription(asset, id) !in old(repo.subs)
              && var t := old(repo.View()).triggers[id];
                 access(asset, owner, SubscribePermissions(cache.env.schema, IsSignalService(t.service), t.metricName)) == Ok(true)
      ensures isUuid && !readFault && GetTrigger(old(repo.View()), id, owner).Ok? ==>
                var t := old(repo.View()).triggers[id];
                var needed := SubscribePermissions(cache.env.schema, IsSignalService(t.service), t.metricName);
                access(asset, owner, needed) == Ok(false) <==> r == Err(Forbidden)
      ensures repo.View() == if r.Err? then old(repo.View())
                             else old(repo.View()).(subs := old(repo.subs) + {Subscription(asset, id)})
      ensures cache.requests == old(cache.requests) + if r.Ok? then 1 else 0
    {
      var trigger := OwnerCheck(id, isUuid, owner, readFault);
      if trigger.Err? { return Err(trigger.error); }
      var t := trigger.value;
      var permissions := SubscribePermissions(cache.env.schema, IsSignalService(t.service), t.metricName);
      match access(asset, owner, permissions) {
        case Err(_) => return Err(Internal);
        case Ok(granted) => if !granted { return Err(Forbidden); }
      }
      r := repo.CreateVehicleSubscription(asset, id, writeFault);
      if r.Err? { return; }
      var spawned := cache.ScheduleRefresh(server);
    }

    /** Vehicles are checked in order, and the first that is not granted decides the error. */
    method CheckAccess(owner: string, assets: seq<string>, permissions: seq<string>, access: Access)
      returns (r: Result<(), Error>)
      ensures r.Ok? <==> forall i :: 0 <= i < |assets| ==> access(assets[i], owner, permissions) == Ok(true)
      ensures r.Err? ==> exists i :: FirstRefused(owner, assets, permissions, access, i)
                                     && r.error == if access(assets[i], owner, permissions).Err? then Internal else Forbidden
    {
      for i := 0 to |assets|
        invariant forall k :: 0 <= k < i ==> access(assets[k], owner, permissions) == Ok(true)
      {
        match access(assets[i], owner, permissions) {
          case Err(_) => return Err(Internal);
          case Ok(granted) => if !granted { return Err(Forbidden); }
        }
      }
      r := Ok(());
    }

    method InsertEntry(ghost before: Db, id: string, assets: seq<string>, faults: nat -> bool, i: nat)
      returns (created: Result<(), Error>)
      requires Valid() && i < |assets| && repo.View() == Inserted(before, id, assets, faults, i)
      modifies repo
      ensures Valid() && repo.View() == Inserted(before, id, assets, faults, i + 1)
      ensures Failures(before, id, assets, faults, i + 1)
              == Failures(before, id, assets, faults, i) + if created.Err? then [assets[i]] else []
      ensures |repo.subs| == |old(repo.subs)| + if created.Err? then 0 else 1
    {
      InsertNext(before, id, assets, faults, i);
      hide Inserted, Fails, Failures, Invariant;
      created := repo.CreateVehicleSubscription(assets[i], id, faults(i));
    }

    /** Inserts entry by entry; every entry either adds a row or is reported. */
    method InsertAll(id: string, assets: seq<string>, faults: nat -> bool) returns (failed: seq<string>)
      requires Valid()
      modifies repo
      ensures Valid()
      ensures repo.View() == Inserted(old(repo.View()), id, assets, faults, |assets|)
      ensures failed == Failures(old(repo.View()), id, assets, faults, |assets|)
      ensures |repo.subs| + |failed| == |old(repo.subs)| + |assets|
    {
      ghost var before := repo.View();
      failed := [];
      hide Inserted, Fails, Failures, Invariant;
      InsertedNone(before, id, assets, faults);
      for i := 0 to |assets|
        invariant Valid()
        invariant repo.View() == Inserted(before, id, assets, faults, i)
        invariant failed == Failures(before, id, assets, faults, i)
        invariant |repo.View().subs| + |failed| == |before.subs| + i
      {
        var created := InsertEntry(before, id, assets, faults, i);
        if created.Err? { failed := failed + [assets[i]]; }
      }
    }

    /**
     One refused vehicle and nothing is written. Otherwise the listed vehicles
     are all subscribed, the failed entries are named, every entry is either a
     new row or a failed entry, and a refresh is asked for only when no entry
     failed.
    */
    method SubscribeMultiple(id: string, owner: string, assets: seq<string>, permissions: seq<string>, access: Access,
                             faults: nat -> bool) returns (r: Result<seq<string>, Error>)
      requires Valid()
      modifies repo, cache`schedule, cache`requests, cache`refresherContext
      ensures Valid()
      ensures r.Ok? <==> forall i :: 0 <= i < |assets| ==> access(assets[i], owner, permissions) == Ok(true)
      ensures r.Err? ==> unchanged(repo) && cache.requests == old(cache.requests)
      ensures r.Ok? ==>
                && r.value == Failures(old(repo.View()), id, assets, faults, |assets|)
                && repo.View() == Inserted(old(repo.View()), id, assets, faults, |assets|)
                && |repo.subs| + |r.value| == |old(repo.subs)| + |assets|
                && cache.requests == old(cache.requests) + if r.value == [] then 1 else 0
    {
      var checked := CheckAccess(owner, assets, permissions, access);
      if checked.Err? { return Err(checked.error); }
      var failed := InsertAll(id, assets, faults);
      if failed == [] { var spawned := cache.ScheduleRefresh(server); }
      r := Ok(failed);
    }

    /** Subscribing a list or all shared vehicles: the owner's trigger decides which permissions each vehicle must grant. */
    method SubscribeVehicles(id: string, isUuid: bool, owner: string, assets: seq<string>, access: Access,
                             readFault: bool, faults: nat -> bool) returns (r: Result<seq<string>, Error>)
      requires Valid()
      modifies repo, cache`schedule, cache`requests, cache`refresherContext
      ensures Valid()
      ensures r.Ok? <==>
              && isUuid && !readFault && GetTrigger(old(repo.View()), id, owner).Ok?
              && var t := old(repo.View()).triggers[id];
                 var needed := SubscribePermissions(cache.env.schema, IsSignalService(t.service), t.metricName);
                 forall i :: 0 <= i < |assets| ==> access(assets[i], owner, needed) == Ok(true)
      ensures r.Err? ==> unchanged(repo) && cache.requests == old(cache.requests)
      ensures r.Ok? ==>
                && r.value == Failures(old(repo.View()), id, assets, faults, |assets|)
                && repo.View() == Inserted(old(repo.View()), id, assets, faults, |assets|)
                && |repo.subs| + |r.value| == |old(repo.subs)| + |assets|
                && cache.requests == old(cache.requests) + if r.value == [] then 1 else 0
    {
      var trigger := OwnerCheck(id, isUuid, owner, readFault);
      if trigger.Err? { return Err(trigger.error); }
      var t := trigger.value;
      var permissions := SubscribePermissions(cache.env.schema, IsSignalService(t.service), t.metricName);
      r := SubscribeMultiple(id, owner, assets, permissions, access, faults);
    }

    method RemoveEntry(ghost before: Db, id: string, assets: seq<string>, faults: nat -> bool, i: nat)
      returns (deleted: Result<nat, Error>)
      requires Valid() && i < |assets| && id != "" && id in before.triggers
      requires repo.View() == Removed(before, id, assets, faults, i)
      modifies repo
      ensures Valid() && repo.View() == Removed(before, id, assets, faults, i + 1)
      ensures Undeleted(assets, faults, i + 1) == Undeleted(assets, faults, i) + if deleted.Err? then [assets[i]] else []
    {
      RemoveNext(before, id, assets, faults, i);
      hide Removed, Undeleted, Invariant;
      deleted := repo.DeleteVehicleSubscription(id, assets[i], faults(i));
    }

    /** Deleting a row that is not there is no failure; entries fail alone, and any failure keeps the refresh from being asked for. */
    method UnsubscribeVehiclesFromList(id: string, isUuid: bool, owner: string, assets: seq<string>, readFault: bool,
                                       faults: nat -> bool) returns (r: Result<seq<string>, Error>)
      requires Valid()
      modifies repo, cache`schedule, cache`requests, cache`refresherContext
      ensures Valid()
      ensures r.Ok? <==> isUuid && !readFault && GetTrigger(old(repo.View()), id, owner).Ok?
      ensures r.Err? ==> unchanged(repo) && cache.requests == old(cache.requests)
      ensures r.Ok? ==>
                && repo.View() == Removed(old(repo.View()), id, assets, faults, |assets|)
                && r.value == Undeleted(assets, faults, |assets|)
                && cache.requests == old(cache.requests) + if r.value == [] then 1 else 0
    {
      var trigger := OwnerCheck(id, isUuid, owner, readFault);
      if trigger.Err? { return Err(trigger.error); }
      ghost var before := repo.View();
      var failed: seq<string> := [];
      assert Removed(before, id, assets, faults, 0) == before && Undeleted(assets, faults, 0) == [];
      hide Removed, Undeleted, Invariant;
      for i := 0 to |assets|
        invariant Valid() && cache.requests == old(cache.requests)
        invariant repo.View() == Removed(before, id, assets, faults, i)
        invariant failed == Undeleted(assets, faults, i)
      {
        var deleted := RemoveEntry(before, id, assets, faults, i);
        if deleted.Err? { failed := failed + [assets[i]]; }
      }
      if failed == [] { var spawned := cache.ScheduleRefresh(server); }
      r := Ok(failed);
    }

    method RemoveVehicleFromWebhook(id: string, isUuid: bool, owner: string, asset: string, readFault: bool,
                                    writeFault: bool) returns (r: Result<(), Error>)
      requires Valid()
      modifies repo, cache`schedule, cache`requests, cache`refresherContext
      ensures Valid()
      ensures r.Ok? <==> isUuid && !readFault && GetTrigger(old(repo.View()), id, owner).Ok? && asset != "" && !writeFault
      ensures repo.View() == if r.Err? then old(repo.View())
                             else old(repo.View()).(subs := old(repo.subs) - {Subscription(asset, id)})
      ensures cache.requests == old(cache.requests) + if r.Ok? then 1 else 0
    {
      var trigger := OwnerCheck(id, isUuid, owner, readFault);
      if trigger.Err? { return Err(trigger.error); }
      var deleted := repo.DeleteVehicleSubscription(id, asset, writeFault);
      if deleted.Err? { return Err(Internal); }
      var spawned := cache.ScheduleRefresh(server);
      r := Ok(());
    }

    /** Every subscription of the trigger goes, and the answer counts them. */
    method UnsubscribeAllVehiclesFromWebhook(id: string, isUuid: bool, owner: string, readFault: bool, writeFault: bool)
      returns (r: Result<nat, Error>)
      requires Valid()
      modifies repo, cache`schedule, cache`requests, cache`refresherContext
      ensures Valid()
      ensures r.Ok? <==> isUuid && !readFault && GetTrigger(old(repo.View()), id, owner).Ok? && !writeFault
      ensures r.Err? ==> unchanged(repo) && cache.requests == old(cache.requests)
      ensures r.Ok? ==>
                && repo.triggers == old(repo.triggers) && repo.logs == old(repo.logs)
                && (forall s :: s in repo.subs <==> s in old(repo.subs) && s.triggerId != id)
                && |repo.subs| + r.value == |old(repo.subs)|
                && cache.requests == old(cache.requests) + 1
    {
      var trigger := OwnerCheck(id, isUuid, owner, readFault);
      if trigger.Err? { return Err(trigger.error); }
      UnsubscribeAllCounts(repo.View(), id);
      hide UnsubscribeAll, Invariant;
      r := repo.DeleteAllVehicleSubscriptionsForTrigger(id, writeFault);
      if r.Err? { return; }
      var spawned := cache.ScheduleRefresh(server);
    }
  }
}
