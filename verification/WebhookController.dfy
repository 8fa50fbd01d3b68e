/**
 Registering, updating and deleting webhooks: each handler, run alone, is the
 two steps it is split into when others interleave
 (internal/controllers/webhook/webhook_controller.go).
*/
module WebhookController {
  import opened Wrappers
  import opened Domain
  import opened Store
  import opened Repository
  import opened WebhookCache
  import H = Handlers
  import SubscriptionController

  const NOBODY: map<nat, Op> := map[]

  /** A handler that nobody interrupts: its read, then its write. */
  function Alone(env: Env, db: Db, history: seq<Op>, read: H.Step, write: H.Step): H.State {
    H.Next(env, H.Next(env, H.State(db, NOBODY, history), read), write)
  }

  /** An uninterrupted update writes the changed row, or nothing when the row is absent or the body is refused. */
  lemma UpdateAlone(env: Env, db: Db, history: seq<Op>, id: string, owner: string, body: H.UpdateRequest)
    ensures var end := Alone(env, db, history, H.ReadForUpdate(0, id, owner, body), H.Commit(0));
            var row := GetTrigger(db, id, owner);
            end == if row.Ok? && H.AcceptsUpdate(env, row.value, body)
                   then H.Perform(env, H.State(db, NOBODY, history), Update(H.Updated(row.value, body)))
                   else H.State(db, NOBODY, history)
    ensures var row := GetTrigger(db, id, owner);
            row.Ok? && H.AcceptsUpdate(env, row.value, body) ==> H.Carries(H.Updated(row.value, body), row.value, body)
  {
  }

  /** What an update needs: the owner's live trigger, accepted fields, a cooldown that fits and a name that is free. */
  ghost predicate CanUpdate(env: Env, db: Db, id: string, owner: string, p: H.UpdateRequest) {
    && id != "" && owner != "" && id in db.triggers && db.triggers[id].owner == owner
    && db.triggers[id].status in {Enabled, Disabled, Failed} && H.Updatable(env, db.triggers[id], p)
    && (p.cooldown.Some? ==> p.cooldown.value <= INT4_MAX)
    && (p.displayName.Some? ==> NameFree(db, id, owner, p.displayName.value))
  }

  /**
   The update of a valid store goes through exactly then; the named fields of
   the one row change, and nothing else does. A name and a cooldown that stay
   are never refused.
  */
  lemma UpdatesExactly(env: Env, db: Db, history: seq<Op>, id: string, owner: string, p: H.UpdateRequest)
    requires Invariant(db, history, env.maxFailures)
    ensures var found := GetTrigger(db, id, owner);
            var goes := && found.Ok? && H.AcceptsUpdate(env, found.value, p)
                        && UpdateTrigger(db, H.Updated(found.value, p)).result.Ok?;
            && (goes <==> CanUpdate(env, db, id, owner, p))
            && (goes ==>
                  var after := UpdateTrigger(db, H.Updated(found.value, p)).db;
                  id in after.triggers && after == db.(triggers := db.triggers[id := after.triggers[id]])
                  && H.Carries(after.triggers[id], db.triggers[id], p))
  {
    if id in db.triggers && db.triggers[id].status != Deleted {
      var row := H.Updated(db.triggers[id], p);
      assert RowOk(db.triggers[id], id, history, env.maxFailures);
      H.FreeIsNotTaken(db, id, owner, row.displayName);
      assert NameFree(db, id, db.triggers[id].owner, db.triggers[id].displayName);
      hide NameTaken, NameFree, PrepareCondition, BuilderValueType, Invariant;
    }
  }

  lemma DeleteAlone(env: Env, db: Db, history: seq<Op>, id: string, owner: string)
    ensures Alone(env, db, history, H.ReadForDelete(0, id, owner), H.Commit(0))
            == if GetTrigger(db, id, owner).Ok? then H.Perform(env, H.State(db, NOBODY, history), Delete(id))
               else H.State(db, NOBODY, history)
  {
  }

  class Controller {
    const repo: TriggersRepo
    const cache: Cache
    const server: Context
    const env: Env
    const subscriptions: SubscriptionController.Controller

    ghost predicate Valid()
      reads this, repo, subscriptions
    {
      repo.Valid() && cache.repo == repo && env.maxFailures == repo.max && subscriptions.repo == repo
    }

    /** Tables and history as the handler machine sees them. */
    ghost function Machine(): H.State
      reads repo
    {
      H.State(repo.View(), NOBODY, repo.history)
    }

    constructor (subscriptions: SubscriptionController.Controller, env: Env)
      requires subscriptions.Valid() && env.maxFailures == subscriptions.repo.max
      ensures Valid() && this.subscriptions == subscriptions && this.env == env
    {
      this.subscriptions, this.env := subscriptions, env;
      this.repo, this.cache, this.server := subscriptions.repo, subscriptions.cache, subscriptions.server;
    }

    /** Registration is the machine's step; no refresh is asked for, as nobody is subscribed yet. */
    method RegisterWebhook(req: H.RegisterRequest, owner: string, verified: bool, freshId: string, fault: bool)
      returns (r: Result<Trigger, Error>)
      requires Valid()
      modifies repo
      ensures Valid()
      ensures !fault ==> Machine() == H.Next(env, old(Machine()), H.Register(freshId, req, owner, verified))
      ensures fault ==> Machine() == old(Machine())
      ensures r.Ok? ==> H.AcceptsRegistration(env, req, verified) && freshId in repo.triggers
                        && repo.triggers[freshId] == r.value && r.value.failures == 0 && freshId !in old(repo.triggers)
      ensures r.Err? ==> repo.View() == old(repo.View())
      ensures r.Ok? <==> !fault && H.Registrable(env, old(repo.View()), freshId, req, owner, verified)
      ensures r.Ok? ==> H.RegisteredAs(r.value, freshId, req, owner)
                        && repo.View() == old(repo.View()).(triggers := old(repo.triggers)[freshId := r.value])
    {
      H.RegistersExactly(env, repo.View(), freshId, req, owner, verified);
      hide H.Registrable, H.RegisteredAs, Creatable, AsRequested, Invariant, NameTaken;
      if !env.urlOk(req.targetUrl) { return Err(Invalid); }
      if !H.AcceptsCondition(env, req.service, req.metricName, req.condition) { return Err(Invalid); }
      if req.cooldown < 0 { return Err(Invalid); }
      if !H.ValidateStatus(req.status) { return Err(Invalid); }
      if !verified { return Err(Invalid); }
      r := repo.CreateTrigger(freshId, H.ToCreate(req, owner), fault);
      if r.Err? { r := Err(Internal); }
    }

    /** Field by field, each new value checked before it is taken; the failure count is always cleared. */
    method ApplyPayload(row: Trigger, p: H.UpdateRequest) returns (r: Result<Trigger, Error>)
      ensures r == if H.AcceptsUpdate(env, row, p) then Ok(H.Updated(row, p)) else Err(Invalid)
      ensures if H.Updatable(env, row, p) then r.Ok? && H.Carries(r.value, row, p) else r == Err(Invalid)
    {
      H.UpdatableIsAccepted(env, row, p);
      if H.AcceptsUpdate(env, row, p) { H.UpdatedCarries(env, row, p); }
      hide H.Updatable, H.Carries, H.AcceptsCondition;
      var event := row;
      if p.targetUrl.Some? {
        if !env.urlOk(p.targetUrl.value) { return Err(Invalid); }
        event := event.(targetUri := p.targetUrl.value);
      }
      if p.status.Some? {
        if !H.ValidateStatus(p.status.value) { return Err(Invalid); }
        event := event.(status := ParseStatus(p.status.value).value);
      }
      if p.condition.Some? {
        if !H.AcceptsCondition(env, event.service, event.metricName, p.condition.value) { return Err(Invalid); }
        event := event.(condition := p.condition.value);
      }
      if p.cooldown.Some? {
        if p.cooldown.value < 0 { return Err(Invalid); }
        event := event.(cooldown := p.cooldown.value);
      }
      if p.description.Some? { event := event.(description := p.description.value); }
      if p.displayName.Some? { event := event.(displayName := p.displayName.value); }
      event := event.(failures := 0);
      r := Ok(event);
    }

    /** Changes the row that was read and writes it back; run alone it is the two steps, and a refresh follows a write. */
    method UpdateWebhook(id: string, owner: string, payload: Option<H.UpdateRequest>, readFault: bool, writeFault: bool)
      returns (r: Result<(), Error>)
      requires Valid()
      modifies repo, cache`schedule, cache`requests, cache`refresherContext
      ensures Valid()
      ensures readFault || writeFault || payload == None ==> r.Err? && Machine() == old(Machine())
      ensures !readFault && !writeFault && payload.Some? ==>
                Machine() == Alone(env, old(repo.View()), old(repo.history),
                                   H.ReadForUpdate(0, id, owner, payload.value), H.Commit(0))
      ensures cache.requests == old(cache.requests) + if r.Ok? then 1 else 0
      ensures r.Ok? <==>
              !readFault && !writeFault && payload.Some? && CanUpdate(env, old(repo.View()), id, owner, payload.value)
      ensures r.Ok? ==>
                && id in repo.triggers && id in old(repo.triggers)
                && H.Carries(repo.triggers[id], old(repo.triggers)[id], payload.value)
                && repo.View() == old(repo.View()).(triggers := old(repo.triggers)[id := repo.triggers[id]])
      ensures r.Err? ==> Machine() == old(Machine())
    {
      ghost var db, history := repo.View(), repo.history;
      if payload.Some? {
        UpdateAlone(env, db, history, id, owner, payload.value);
        UpdatesExactly(env, db, history, id, owner, payload.value);
      }
      hide Alone, Invariant, NameTaken, CanUpdate, H.Carries, H.Updatable, H.Updated, H.AcceptsUpdate, UpdateTrigger;
      var found := repo.GetTriggerByIDAndDeveloperLicense(id, owner, readFault);
      if found.Err? { return Err(found.error); }
      if payload == None { return Err(Invalid); }
      var changed := ApplyPayload(found.value, payload.value);
      if changed.Err? { return Err(changed.error); }
      r := repo.UpdateTrigger(changed.value, writeFault);
      if r.Err? { return; }
      var spawned := cache.ScheduleRefresh(server);
    }

    method DeleteWebhook(id: string, isUuid: bool, owner: string, readFault: bool, writeFault: bool)
      returns (r: Result<(), Error>)
      requires Valid()
      modifies repo, cache`schedule, cache`requests, cache`refresherContext
      ensures Valid()
      ensures !isUuid || readFault || writeFault ==> r.Err? && Machine() == old(Machine())
      ensures isUuid && !readFault && !writeFault ==>
                Machine() == Alone(env, old(repo.View()), old(repo.history), H.ReadForDelete(0, id, owner), H.Commit(0))
      ensures r.Ok? <==>
              && isUuid && !readFault && !writeFault && id != "" && owner != "" && id in old(repo.triggers)
              && old(repo.triggers)[id].owner == owner && old(repo.triggers)[id].status in {Enabled, Disabled, Failed}
      ensures r.Ok? ==>
                && repo.triggers == old(repo.triggers)[id := old(repo.triggers)[id].(status := Deleted)]
                && (forall s :: s in repo.subs <==> s in old(repo.subs) && s.triggerId != id) && repo.logs == old(repo.logs)
      ensures r.Err? ==> Machine() == old(Machine())
      ensures cache.requests == old(cache.requests) + if r.Ok? then 1 else 0
    {
      DeleteAlone(env, repo.View(), repo.history, id, owner);
      hide Alone, Invariant;
      var checked := subscriptions.OwnerCheck(id, isUuid, owner, readFault);
      if checked.Err? { return Err(checked.error); }
      r := repo.DeleteTrigger(id, owner, writeFault);
      if r.Err? { return; }
      var spawned := cache.ScheduleRefresh(server);
    }
  }
}
