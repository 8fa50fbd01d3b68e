/**
 The trigger repository: an object over the three tables whose methods read
 and write rows in place (internal/services/triggersrepo/triggersrepo.go).
 A `fault` argument is the driver failing before the transaction commits.
*/
module Repository {
  import opened Wrappers
  import opened Domain
  import opened Store

  /** rows lists the set, each element once, in an order SQL does not fix. */
  ghost predicate Enumerates<T>(rows: seq<T>, elements: set<T>) {
    && (forall i :: 0 <= i < |rows| ==> rows[i] in elements)
    && (forall x :: x in elements ==> x in rows)
    && Distinct(rows)
  }

  /** Subscriptions joined with triggers that are not deleted. */
  function LiveSubscriptions(db: Db): set<Subscription> {
    set s | s in db.subs && s.triggerId in db.triggers && db.triggers[s.triggerId].status != Deleted
  }

  /** The log is one an ORDER BY last_triggered_at DESC LIMIT 1 may return for these triggers and this asset. */
  ghost predicate IsLatest(logs: seq<TriggerLog>, ids: set<string>, asset: string, answer: Option<TriggerLog>) {
    match answer
    case None => forall l :: l in logs ==> !(l.asset == asset && l.triggerId in ids)
    case Some(log) =>
      && log in logs && log.asset == asset && log.triggerId in ids
      && forall l :: l in logs && l.asset == asset && l.triggerId in ids ==> l.at <= log.at
  }

  /** The latest log of the join of logs and triggers on one metric, deleted triggers included. */
  ghost predicate IsLatestForMetric(db: Db, asset: string, metricName: string, answer: Option<TriggerLog>) {
    match answer
    case None => forall l :: l in db.logs ==> !OnMetric(db, l, asset, metricName)
    case Some(log) =>
      && log in db.logs && OnMetric(db, log, asset, metricName)
      && forall l :: l in db.logs && OnMetric(db, l, asset, metricName) ==> l.at <= log.at
  }

  predicate OnMetric(db: Db, log: TriggerLog, asset: string, metricName: string) {
    log.asset == asset && log.triggerId in db.triggers && db.triggers[log.triggerId].metricName == metricName
  }

  function IdsOnMetric(db: Db, metricName: string): set<string> {
    set id | id in db.triggers && db.triggers[id].metricName == metricName
  }

  /** Two queries, first the triggers of the metric and then the logs of those triggers, find the latest log of the join. */
  lemma TwoQueriesAreTheJoin(db: Db, asset: string, metricName: string, answer: Option<TriggerLog>)
    ensures IsLatestForMetric(db, asset, metricName, answer)
            <==> IsLatest(db.logs, IdsOnMetric(db, metricName), asset, answer)
  {
  }

  class TriggersRepo {
    var triggers: map<string, Trigger>
    var subs: set<Subscription>
    var logs: seq<TriggerLog>
    ghost const max: int
    ghost var history: seq<Op>

    ghost function View(): Db
      reads this
    {
      Db(triggers, subs, logs)
    }

    ghost predicate Valid()
      reads this
    {
      max >= 1 && Invariant(View(), history, max)
    }

    /** The object took this write: its tables and its history moved together. */
    twostate predicate Took(op: Op, o: Outcome<()>)
      reads this
    {
      View() == o.db && history == Record(old(history), op, o)
    }

    constructor (ghost max: int)
      requires max >= 1
      ensures Valid() && this.max == max && View() == EMPTY_DB && history == []
    {
      triggers, subs, logs := map[], {}, [];
      history := [];
      this.max := max;
    }

    method CreateTrigger(id: string, req: CreateRequest, fault: bool) returns (r: Result<Trigger, Error>)
      requires Valid()
      modifies this
      ensures Valid()
      ensures fault ==> unchanged(this) && r == Err(if ValidRequest(req) then Internal else Invalid)
      ensures !fault ==> r == Store.CreateTrigger(old(View()), id, req).result
                         && Took(Create(id, req), Apply(old(View()), Create(id, req), max))
      ensures r.Ok? <==> !fault && Creatable(old(View()), id, req)
      ensures r.Ok? ==> AsRequested(r.value, id, req) && triggers == old(triggers)[id := r.value]
    {
      ghost var before := View();
      CreatesExactly(before, id, req);
      hide Creatable, AsRequested;
      if !ValidRequest(req) { return Err(Invalid); }
      if fault { return Err(Internal); }
      var status := ParseStatus(req.status);
      if !FitsInt4(req.cooldown) || status == None || id in triggers { return Err(Internal); }
      var row := NewTrigger(id, req, status.value);
      if row.status != Deleted && NameTaken(Db(triggers, subs, logs), id, row.owner, row.displayName) {
        return Err(DuplicateName);
      }
      InvariantPreserved(before, history, Create(id, req), max);
      triggers := triggers[id := row];
      history := history + [Create(id, req)];
      r := Ok(row);
    }

    method GetTriggerByIDAndDeveloperLicense(id: string, owner: string, fault: bool) returns (r: Result<Trigger, Error>)
      ensures r == if fault && id != "" && owner != "" then Err(Internal) else GetTrigger(View(), id, owner)
      ensures r.Ok? <==>
              && !fault && id != "" && owner != ""
              && id in triggers && triggers[id].owner == owner && triggers[id].status in {Enabled, Disabled, Failed}
      ensures r.Ok? ==> r.value == triggers[id]
    {
      if id == "" || owner == "" { return Err(Invalid); }
      if fault { return Err(Internal); }
      if id in triggers && triggers[id].owner == owner && triggers[id].status != Deleted { return Ok(triggers[id]); }
      r := Err(NotFound);
    }

    method InternalGetTriggerByID(id: string, fault: bool) returns (r: Result<Trigger, Error>)
      ensures r == if fault && id != "" then Err(Internal) else InternalGetTrigger(View(), id)
      ensures r.Ok? <==> !fault && id != "" && id in triggers && triggers[id].status in {Enabled, Disabled, Failed}
      ensures r.Ok? ==> r.value == triggers[id]
    {
      if id == "" { return Err(Invalid); }
      if fault { return Err(Internal); }
      if id in triggers && triggers[id].status != Deleted { return Ok(triggers[id]); }
      r := Err(NotFound);
    }

    /** The invariant survives an update that clears the count, as every caller's does, and any update that fails. */
    method UpdateTrigger(t: Trigger, fault: bool) returns (r: Result<(), Error>)
      requires Valid()
      modifies this
      ensures t.failures == 0 || r.Err? ==> Valid()
      ensures fault ==> unchanged(this) && r == Err(Internal)
      ensures !fault ==> r == Store.UpdateTrigger(old(View()), t).result
                         && Took(Update(t), Apply(old(View()), Update(t), max))
      ensures r.Ok? <==>
              && !fault && FitsInt4(t.cooldown) && FitsInt4(t.failures) && t.id in old(triggers)
              && (t.status == Deleted || NameFree(old(View()), t.id, old(triggers)[t.id].owner, t.displayName))
      ensures r.Ok? ==>
                && subs == old(subs) && logs == old(logs)
                && var was := old(triggers)[t.id];
                   triggers == old(triggers)[t.id := t.(owner := was.owner, service := was.service)]
    {
      if fault { return Err(Internal); }
      if t.failures == 0 { InvariantPreserved(View(), history, Update(t), max); }
      r := WriteRow(t);
      if r.Ok? { history := history + [Update(t)]; }
    }

    /** The shared column write: no row, a number out of range and a taken name are errors. */
    method WriteRow(t: Trigger) returns (r: Result<(), Error>)
      modifies this`triggers
      ensures View() == Store.UpdateTrigger(old(View()), t).db && r == Store.UpdateTrigger(old(View()), t).result
    {
      if !FitsInt4(t.cooldown) || !FitsInt4(t.failures) { return Err(Internal); }
      if t.id !in triggers { return Err(NotFound); }
      var row := t.(owner := triggers[t.id].owner, service := triggers[t.id].service);
      if row.status != Deleted && NameTaken(Db(triggers, subs, logs), row.id, row.owner, row.displayName) {
        return Err(DuplicateName);
      }
      triggers := triggers[row.id := row];
      r := Ok(());
    }

    /** The invariant survives any threshold up to the store's, and any call that fails. */
    method IncrementTriggerFailureCount(id: string, owner: string, maxFailureCount: int, fault: bool)
      returns (r: Result<(), Error>)
      requires Valid()
      modifies this
      ensures maxFailureCount <= max || r.Err? ==> Valid()
      ensures fault ==> unchanged(this) && r.Err?
      ensures !fault ==> r == IncrementFailures(old(View()), id, owner, maxFailureCount).result
                         && Took(Increment(id, owner), Apply(old(View()), Increment(id, owner), maxFailureCount))
    {
      ghost var before := View();
      var fetched := GetTriggerByIDAndDeveloperLicense(id, owner, fault);
      if fetched.Err? { return Err(fetched.error); }
      var t := fetched.value;
      t := t.(failures := t.failures + 1);
      if t.failures >= maxFailureCount {
        t := t.(status := Failed);
      }
      if maxFailureCount <= max { LowerThresholdPreserves(before, history, id, owner, maxFailureCount, max); }
      r := WriteRow(t);
      if r.Ok? { history := history + [Increment(id, owner)]; }
    }

    method ResetTriggerFailureCount(id: string, fault: bool) returns (r: Result<(), Error>)
      requires Valid()
      modifies this
      ensures Valid()
      ensures fault ==> unchanged(this) && r.Err?
      ensures !fault ==> r.Ok? && Took(Reset(id), Apply(old(View()), Reset(id), max))
      ensures r.Ok? ==>
                && triggers.Keys == old(triggers.Keys) && subs == old(subs) && logs == old(logs)
                && forall i :: i in triggers ==>
                     var was := old(triggers)[i];
                     triggers[i] == if i != id || was.failures <= 0 then was
                                    else was.(failures := 0, status := if was.status == Failed then Enabled else was.status)
    {
      if fault { return Err(Internal); }
      InvariantPreserved(View(), history, Reset(id), max);
      if id in triggers && triggers[id].failures > 0 {
        var t := triggers[id];
        triggers := triggers[id := t.(failures := 0, status := if t.status == Failed then Enabled else t.status)];
      }
      history := history + [Reset(id)];
      r := Ok(());
    }

    method DeleteTrigger(id: string, owner: string, fault: bool) returns (r: Result<(), Error>)
      requires Valid()
      modifies this
      ensures Valid()
      ensures fault ==> unchanged(this) && r == Err(Internal)
      ensures !fault ==> r == Store.DeleteTrigger(old(View()), id, owner).result
      ensures r.Ok? ==> Took(Delete(id), Apply(old(View()), Delete(id), max))
      ensures r.Err? ==> unchanged(this)
      ensures r.Ok? <==>
              && !fault && id in old(triggers) && old(triggers)[id].owner == owner
              && old(triggers)[id].status in {Enabled, Disabled, Failed}
    {
      if fault || id !in triggers || triggers[id].owner != owner || triggers[id].status == Deleted {
        return Err(Internal);
      }
      InvariantPreserved(View(), history, Delete(id), max);
      triggers := triggers[id := triggers[id].(status := Deleted)];
      subs := set s | s in subs && s.triggerId != id;
      history := history + [Delete(id)];
      r := Ok(());
    }

    method CreateVehicleSubscription(asset: string, id: string, fault: bool) returns (r: Result<(), Error>)
      requires Valid()
      modifies this
      ensures Valid()
      ensures fault ==> unchanged(this) && r == Err(if asset == "" || id == "" then Invalid else Internal)
      ensures !fault ==> r == Subscribe(old(View()), asset, id).result
                         && Took(AddSubscription(asset, id), Apply(old(View()), AddSubscription(asset, id), max))
    {
      if asset == "" || id == "" { return Err(Invalid); }
      if fault { return Err(Internal); }
      if id !in triggers { return Err(NotFound); }
      if Subscription(asset, id) in subs { return Err(AlreadySubscribed); }
      InvariantPreserved(View(), history, AddSubscription(asset, id), max);
      subs := subs + {Subscription(asset, id)};
      history := history + [AddSubscription(asset, id)];
      r := Ok(());
    }

    method DeleteVehicleSubscription(id: string, asset: string, fault: bool) returns (r: Result<nat, Error>)
      requires Valid()
      modifies this
      ensures Valid()
      ensures fault ==> unchanged(this) && r.Err?
      ensures !fault ==> r == Unsubscribe(old(View()), id, asset).result
                         && Took(RemoveSubscription(asset, id), Apply(old(View()), RemoveSubscription(asset, id), max))
      ensures r.Ok? <==> !fault && asset != "" && id != ""
      ensures r.Ok? ==>
                && subs == old(subs) - {Subscription(asset, id)} && triggers == old(triggers) && logs == old(logs)
                && r.value == |old(subs)| - |subs|
    {
      if asset == "" || id == "" { return Err(Invalid); }
      if fault { return Err(Internal); }
      InvariantPreserved(View(), history, RemoveSubscription(asset, id), max);
      r := Ok(if Subscription(asset, id) in subs then 1 else 0);
      subs := subs - {Subscription(asset, id)};
      history := history + [RemoveSubscription(asset, id)];
    }

    method DeleteAllVehicleSubscriptionsForTrigger(id: string, fault: bool) returns (r: Result<nat, Error>)
      requires Valid()
      modifies this
      ensures Valid()
      ensures fault ==> unchanged(this) && r.Err?
      ensures !fault ==> r == UnsubscribeAll(old(View()), id).result
                         && Took(RemoveSubscriptions(id), Apply(old(View()), RemoveSubscriptions(id), max))
    {
      if id == "" { return Err(Invalid); }
      if fault { return Err(Internal); }
      InvariantPreserved(View(), history, RemoveSubscriptions(id), max);
      var doomed := set s | s in subs && s.triggerId == id;
      subs := set s | s in subs && s.triggerId != id;
      history := history + [RemoveSubscriptions(id)];
      r := Ok(|doomed|);
    }

    method CreateTriggerLog(log: TriggerLog, freshId: string, fault: bool) returns (r: Result<(), Error>)
      requires Valid()
      modifies this
      ensures Valid()
      ensures fault ==> unchanged(this) && r.Err?
      ensures !fault ==> r == CreateLog(old(View()), log, freshId).result
                         && Took(AddLog(log, freshId), Apply(old(View()), AddLog(log, freshId), max))
      ensures r.Ok? ==> exists id :: logs == old(logs) + [TriggerLog(id, log.triggerId, log.asset, log.snapshot, log.at)]
                                     && (log.id != "" ==> id == log.id) && (log.id == "" ==> id == freshId)
    {
      if log.asset == "" || log.triggerId == "" { return Err(Invalid); }
      if fault { return Err(Internal); }
      var row := if log.id == "" then log.(id := freshId) else log;
      if row.triggerId !in triggers || exists l :: l in logs && l.id == row.id { return Err(Internal); }
      InvariantPreserved(View(), history, AddLog(log, freshId), max);
      logs := logs + [row];
      history := history + [AddLog(log, freshId)];
      r := Ok(());
    }

    /** The join read the cache is built from, in whatever order the rows come. */
    method InternalGetAllVehicleSubscriptions(fault: bool) returns (r: Result<seq<Subscription>, Error>)
      ensures fault ==> r == Err(Internal)
      ensures !fault ==> r.Ok? && Enumerates(r.value, LiveSubscriptions(View()))
      ensures r.Ok? ==> forall s :: s in r.value <==>
                s in subs && s.triggerId in triggers && triggers[s.triggerId].status in {Enabled, Disabled, Failed}
    {
      if fault { return Err(Internal); }
      var all := LiveSubscriptions(Db(triggers, subs, logs));
      var left := all;
      var rows: seq<Subscription> := [];
      while left != {}
        invariant left <= all && Enumerates(rows, all - left)
        decreases |left|
      {
        var s :| s in left;
        left := left - {s};
        rows := rows + [s];
      }
      assert all - left == all;
      r := Ok(rows);
    }

    /** Latest log of any of these triggers on an asset. */
    method LatestLog(ids: set<string>, asset: string) returns (answer: Option<TriggerLog>)
      ensures IsLatest(logs, ids, asset, answer)
    {
      answer := None;
      for i := 0 to |logs|
        invariant IsLatest(logs[..i], ids, asset, answer)
      {
        if logs[i].asset == asset && logs[i].triggerId in ids && (answer == None || answer.value.at < logs[i].at) {
          answer := Some(logs[i]);
        }
        assert logs[..i + 1] == logs[..i] + [logs[i]];
      }
      assert logs[..|logs|] == logs;
    }

    method GetLastLogValue(id: string, asset: string, fault: bool) returns (r: Result<Option<TriggerLog>, Error>)
      ensures fault ==> r == Err(Internal)
      ensures !fault ==> r.Ok? && IsLatest(View().logs, {id}, asset, r.value)
    {
      if fault { return Err(Internal); }
      var answer := LatestLog({id}, asset);
      r := Ok(answer);
    }

    /** Collects the ids of the metric's triggers, then asks for their latest log; equals the join of the two tables. */
    method GetLastLogForMetric(asset: string, metricName: string, fault: bool)
      returns (r: Result<Option<TriggerLog>, Error>)
      ensures fault ==> r == Err(Internal)
      ensures !fault ==> r.Ok? && IsLatestForMetric(View(), asset, metricName, r.value)
    {
      if fault { return Err(Internal); }
      var left := triggers.Keys;
      var ids: set<string> := {};
      while left != {}
        invariant left <= triggers.Keys
        invariant ids == set id | id in triggers && id !in left && triggers[id].metricName == metricName
        decreases |left|
      {
        var id :| id in left;
        left := left - {id};
        if triggers[id].metricName == metricName { ids := ids + {id}; }
      }
      var answer: Option<TriggerLog> := None;
      if ids != {} { answer := LatestLog(ids, asset); }
      assert ids == IdsOnMetric(View(), metricName);
      TwoQueriesAreTheJoin(View(), asset, metricName, answer);
      r := Ok(answer);
    }
  }
}
