/**
 The request handlers as interleaved steps. A handler that reads a row and
 writes it back in a second transaction leaves a pending write in between, and
 any other handler or delivery may run there
 (internal/controllers/webhook, internal/services/triggersrepo).
*/
module Handlers {
  import opened Wrappers
  import opened Domain
  import opened Store

  datatype RegisterRequest = RegisterRequest(
    service: string,
    metricName: string,
    condition: string,
    cooldown: int,
    description: string,
    displayName: string,
    targetUrl: string,
    status: string)

  datatype UpdateRequest = UpdateRequest(
    condition: Option<string>,
    cooldown: Option<int>,
    targetUrl: Option<string>,
    status: Option<string>,
    description: Option<string>,
    displayName: Option<string>)

  predicate ValidateStatus(text: string) { text == "enabled" || text == "disabled" }

  /** Registration and update accept a condition for a service and metric exactly when it prepares. */
  predicate AcceptsCondition(env: Env, service: string, metricName: string, condition: string) {
    && (IsSignalService(service) || IsEventService(service))
    && PrepareCondition(env, service, condition, BuilderValueType(env, service, metricName)) != None
  }

  /** The checks of registration, before the row is created; `verified` is the endpoint's answer. */
  predicate AcceptsRegistration(env: Env, req: RegisterRequest, verified: bool) {
    && env.urlOk(req.targetUrl)
    && AcceptsCondition(env, req.service, req.metricName, req.condition)
    && req.cooldown >= 0
    && ValidateStatus(req.status)
    && verified
  }

  function ToCreate(req: RegisterRequest, owner: string): CreateRequest {
    CreateRequest(req.displayName, req.service, req.metricName, req.condition, req.targetUrl, req.status,
                  req.description, req.cooldown, owner)
  }

  /** The registered row holds the request column by column, and the owner who asked. */
  predicate RegisteredAs(row: Trigger, id: string, req: RegisterRequest, owner: string) {
    && row.id == id && row.owner == owner && row.service == req.service && row.metricName == req.metricName
    && row.condition == req.condition && row.targetUri == req.targetUrl && row.description == req.description
    && row.cooldown == req.cooldown && StatusText(row.status) == req.status && row.failures == 0
    && (req.displayName != "" ==> row.displayName == req.displayName)
    && (req.displayName == "" ==> row.displayName == id)
  }

  /** What the handler's checks, the columns and the indexes demand of a registration. */
  ghost predicate Registrable(env: Env, db: Db, id: string, req: RegisterRequest, owner: string, verified: bool) {
    && verified && env.urlOk(req.targetUrl) && req.status in {"enabled", "disabled"} && 0 <= req.cooldown <= INT4_MAX
    && PrepareCondition(env, req.service, req.condition, BuilderValueType(env, req.service, req.metricName)).Some?
    && "" !in {req.metricName, owner, req.condition, req.targetUrl}
    && id !in db.triggers && NameFree(db, id, owner, if req.displayName == "" then id else req.displayName)
  }

  lemma RegistersExactly(env: Env, db: Db, id: string, req: RegisterRequest, owner: string, verified: bool)
    ensures Registrable(env, db, id, req, owner, verified)
            <==> AcceptsRegistration(env, req, verified) && Creatable(db, id, ToCreate(req, owner))
    ensures forall row :: AsRequested(row, id, ToCreate(req, owner)) <==> RegisteredAs(row, id, req, owner)
  {
    hide NameFree;
  }

  predicate AcceptsUpdate(env: Env, row: Trigger, p: UpdateRequest) {
    && (p.targetUrl.Some? ==> env.urlOk(p.targetUrl.value))
    && (p.status.Some? ==> ValidateStatus(p.status.value))
    && (p.condition.Some? ==> AcceptsCondition(env, row.service, row.metricName, p.condition.value))
    && (p.cooldown.Some? ==> p.cooldown.value >= 0)
  }

  /** A field takes the value a request names, and keeps its own otherwise. */
  predicate Takes<T(==)>(after: T, asked: Option<T>, before: T) {
    match asked case Some(v) => after == v case None => after == before
  }

  /** Field by field, the row after an update; the status as its text, the count cleared, the identity kept. */
  predicate Carries(after: Trigger, before: Trigger, p: UpdateRequest) {
    && Takes(after.targetUri, p.targetUrl, before.targetUri) && Takes(after.condition, p.condition, before.condition)
    && Takes(after.cooldown, p.cooldown, before.cooldown) && Takes(after.description, p.description, before.description)
    && Takes(after.displayName, p.displayName, before.displayName)
    && Takes(StatusText(after.status), p.status, StatusText(before.status))
    && after.failures == 0 && SameIdentity(before, after)
  }

  function GetOr<T>(o: Option<T>, default: T): T {
    match o case Some(v) => v case None => default
  }

  /** The row an accepted update writes back. */
  function Updated(row: Trigger, p: UpdateRequest): Trigger {
    row.(targetUri := GetOr(p.targetUrl, row.targetUri),
         status := if p.status == None then row.status else if p.status.value == "enabled" then Enabled else Disabled,
         condition := GetOr(p.condition, row.condition),
         cooldown := GetOr(p.cooldown, row.cooldown),
         description := GetOr(p.description, row.description),
         displayName := GetOr(p.displayName, row.displayName),
         failures := 0)
  }

  lemma UpdatedCarries(env: Env, row: Trigger, p: UpdateRequest)
    requires AcceptsUpdate(env, row, p)
    ensures Carries(Updated(row, p), row, p)
  {
  }

  // ---- The machine ----

  /** `pending` holds the write each open handler is about to make; `history` the writes that committed. */
  datatype State = State(db: Db, pending: map<nat, Op>, history: seq<Op>)

  const INITIAL := State(EMPTY_DB, map[], [])

  datatype Step =
    | Register(id: string, req: RegisterRequest, owner: string, verified: bool)
    | ReadForUpdate(h: nat, id: string, owner: string, body: UpdateRequest)
    | ReadForDelete(h: nat, id: string, owner: string)
    | ReadForSubscribe(h: nat, id: string, owner: string, asset: string, granted: bool)
    | Commit(h: nat)
    | Abandon(h: nat)
    | Write(op: Op)

  function Perform(env: Env, s: State, op: Op): State {
    var o := Apply(s.db, op, env.maxFailures);
    s.(db := o.db, history := Record(s.history, op, o))
  }

  function Open(s: State, h: nat, op: Op): map<nat, Op> {
    if h in s.pending then s.pending else s.pending[h := op]
  }

  /** The write a step makes; a step that a check refuses, or that does not apply, makes none. */
  function Performed(env: Env, s: State, step: Step): Option<Op> {
    match step
    case Register(id, req, owner, verified) =>
      if AcceptsRegistration(env, req, verified) then Some(Create(id, ToCreate(req, owner))) else None
    case Commit(h) => if h in s.pending then Some(s.pending[h]) else None
    case Write(op) =>
      if op.Increment? || op.Reset? || op.RemoveSubscription? || op.RemoveSubscriptions? || op.AddLog?
      then Some(op) else None
    case _ => None
  }

  /** The open handlers after a step: a first half opens one, a second half closes it. */
  function PendingAfter(env: Env, s: State, step: Step): map<nat, Op> {
    match step
    case ReadForUpdate(h, id, owner, body) =>
      var row := GetTrigger(s.db, id, owner);
      if row.Ok? && AcceptsUpdate(env, row.value, body) then Open(s, h, Update(Updated(row.value, body))) else s.pending
    case ReadForDelete(h, id, owner) =>
      if GetTrigger(s.db, id, owner).Ok? then Open(s, h, Delete(id)) else s.pending
    case ReadForSubscribe(h, id, owner, asset, granted) =>
      if GetTrigger(s.db, id, owner).Ok? && granted then Open(s, h, AddSubscription(asset, id)) else s.pending
    case Commit(h) => s.pending - {h}
    case Abandon(h) => s.pending - {h}
    case _ => s.pending
  }

  function Next(env: Env, s: State, step: Step): State {
    var performed := match Performed(env, s, step) case Some(op) => Perform(env, s, op) case None => s;
    performed.(pending := PendingAfter(env, s, step))
  }

  function Run(env: Env, s: State, steps: seq<Step>): State
    decreases |steps|
  {
    if steps == [] then s else Run(env, Next(env, s, steps[0]), steps[1..])
  }

  // ---- What every interleaving keeps ----

  /** A pending write still fits the row it was read from: the identity columns never move. */
  predicate PendingOk(env: Env, db: Db, op: Op) {
    match op
    case Update(row) =>
      && row.failures == 0 && row.cooldown >= 0 && env.urlOk(row.targetUri) && row.status != Deleted && row.id in db.triggers
      && row.owner == db.triggers[row.id].owner
      && row.service == db.triggers[row.id].service && row.metricName == db.triggers[row.id].metricName
      && AcceptsCondition(env, row.service, row.metricName, row.condition)
    case Delete(id) => id in db.triggers
    case AddSubscription(_, id) => id in db.triggers
    case _ => false
  }

  ghost predicate ConditionsOk(env: Env, db: Db) {
    forall id :: id in db.triggers ==> Accepted(env, db.triggers[id])
  }

  predicate Accepted(env: Env, t: Trigger) {
    t.cooldown >= 0 && env.urlOk(t.targetUri) && AcceptsCondition(env, t.service, t.metricName, t.condition)
  }

  ghost predicate HandlersOk(env: Env, s: State) {
    && Invariant(s.db, s.history, env.maxFailures)
    && ConditionsOk(env, s.db)
    && (forall h :: h in s.pending ==> PendingOk(env, s.db, s.pending[h]))
  }

  predicate SameIdentity(t: Trigger, t': Trigger) {
    t'.id == t.id && t'.owner == t.owner && t'.service == t.service && t'.metricName == t.metricName
  }

  /** Rows keep their identity columns and are never removed. */
  ghost predicate Extends(db: Db, db': Db) {
    forall id :: id in db.triggers ==> id in db'.triggers && SameIdentity(db.triggers[id], db'.triggers[id])
  }

  /** A write the machine may perform: a create that was accepted, or an operation that is safe to leave pending. */
  predicate Performable(env: Env, db: Db, op: Op) {
    && (op.Create? ==>
          && op.req.cooldown >= 0 && env.urlOk(op.req.targetUri)
          && AcceptsCondition(env, op.req.service, op.req.metricName, op.req.condition))
    && (op.Update? ==> PendingOk(env, db, op))
  }

  /** Row by row, a performed write keeps conditions accepted and identities fixed. */
  lemma RowPerformed(env: Env, s: State, op: Op, id: string)
    requires HandlersOk(env, s) && Performable(env, s.db, op) && id in Perform(env, s, op).db.triggers
    ensures Accepted(env, Perform(env, s, op).db.triggers[id])
    ensures id in s.db.triggers ==> SameIdentity(s.db.triggers[id], Perform(env, s, op).db.triggers[id])
  {
    hide Apply, PrepareCondition;
    RowsAfter(s.db, op, env.maxFailures, id);
  }

  lemma RowsPerformed(env: Env, s: State, op: Op)
    requires HandlersOk(env, s) && Performable(env, s.db, op)
    ensures ConditionsOk(env, Perform(env, s, op).db) && Extends(s.db, Perform(env, s, op).db)
  {
    hide Apply, Accepted, Performable;
    var db' := Perform(env, s, op).db;
    forall id | id in s.db.triggers ensures id in db'.triggers {
      RowsAfter(s.db, op, env.maxFailures, id);
    }
    hide Perform, Invariant;
    forall id | id in db'.triggers
      ensures Accepted(env, db'.triggers[id])
      ensures id in s.db.triggers ==> SameIdentity(s.db.triggers[id], db'.triggers[id])
    {
      RowPerformed(env, s, op, id);
    }
  }

  lemma PendingStillFits(env: Env, db: Db, db': Db, op: Op)
    requires PendingOk(env, db, op) && Extends(db, db')
    ensures PendingOk(env, db', op)
  {
    hide AcceptsCondition;
  }

  lemma PerformKeeps(env: Env, s: State, op: Op)
    requires env.maxFailures >= 1 && HandlersOk(env, s) && Performable(env, s.db, op)
    ensures var s' := Perform(env, s, op);
            s'.pending == s.pending && HandlersOk(env, s') && Extends(s.db, s'.db)
  {
    InvariantPreserved(s.db, s.history, op, env.maxFailures);
    RowsPerformed(env, s, op);
    hide Apply, Invariant, ConditionsOk, Extends, PendingOk, Performable;
    var s' := Perform(env, s, op);
    forall h | h in s'.pending ensures PendingOk(env, s'.db, s'.pending[h]) {
      PendingStillFits(env, s.db, s'.db, s.pending[h]);
    }
  }

  /** A handler that opens leaves a write that fits its row. */
  lemma OpensOk(env: Env, s: State, step: Step)
    requires HandlersOk(env, s)
    ensures forall h :: h in PendingAfter(env, s, step) ==> PendingOk(env, s.db, PendingAfter(env, s, step)[h])
  {
  }

  lemma NextKeeps(env: Env, s: State, step: Step)
    requires env.maxFailures >= 1 && HandlersOk(env, s)
    ensures HandlersOk(env, Next(env, s, step)) && Extends(s.db, Next(env, s, step).db)
  {
    OpensOk(env, s, step);
    match Performed(env, s, step)
    case None =>
    case Some(op) =>
      assert step.Commit? ==> PendingOk(env, s.db, op);
      PerformKeeps(env, s, op);
      hide Perform;
      forall h | h in PendingAfter(env, s, step)
        ensures PendingOk(env, Perform(env, s, op).db, PendingAfter(env, s, step)[h])
      {
        assert PendingOk(env, s.db, PendingAfter(env, s, step)[h]);
      }
  }

  /**
   Every interleaving of handlers and deliveries, split reads and writes
   included, keeps the store's invariant: a count that reached the threshold
   sits on a failed or deleted trigger, the count is the number of increments
   since the last create, update or reset, every stored condition prepares
   with the type the cache builder uses, and identity columns never change.
  */
  lemma {:induction false} EveryRunKeeps(env: Env, s: State, steps: seq<Step>)
    requires env.maxFailures >= 1 && HandlersOk(env, s)
    ensures HandlersOk(env, Run(env, s, steps)) && Extends(s.db, Run(env, s, steps).db)
    decreases |steps|
  {
    if steps != [] {
      NextKeeps(env, s, steps[0]);
      EveryRunKeeps(env, Next(env, s, steps[0]), steps[1..]);
    }
  }

  lemma CircuitBreaker(env: Env, steps: seq<Step>, id: string)
    requires env.maxFailures >= 1 && id in Run(env, INITIAL, steps).db.triggers
    ensures var t := Run(env, INITIAL, steps).db.triggers[id];
            t.failures >= env.maxFailures ==> t.status == Failed || t.status == Deleted
    ensures Run(env, INITIAL, steps).db.triggers[id].failures
              == ConsecutiveFailures(Run(env, INITIAL, steps).history, id)
  {
    EveryRunKeeps(env, INITIAL, steps);
    var s := Run(env, INITIAL, steps);
    assert RowOk(s.db.triggers[id], id, s.history, env.maxFailures);
  }

  lemma AcceptedConditionsCompile(env: Env, steps: seq<Step>, id: string)
    requires env.maxFailures >= 1 && id in Run(env, INITIAL, steps).db.triggers
    ensures var t := Run(env, INITIAL, steps).db.triggers[id];
            PrepareCondition(env, t.service, t.condition, BuilderValueType(env, t.service, t.metricName)).Some?
  {
    EveryRunKeeps(env, INITIAL, steps);
  }

  /** Webhooks go to no URL that the check refuses. */
  lemma StoredTargetsAreChecked(env: Env, steps: seq<Step>, id: string)
    requires env.maxFailures >= 1 && id in Run(env, INITIAL, steps).db.triggers
    ensures env.urlOk(Run(env, INITIAL, steps).db.triggers[id].targetUri)
  {
    EveryRunKeeps(env, INITIAL, steps);
  }

  // ---- What a read leaves pending ----

  /** A name not in use is a name that is free. */
  lemma FreeIsNotTaken(db: Db, id: string, owner: string, name: string)
    ensures NameFree(db, id, owner, name) <==> !NameTaken(db, id, owner, name)
  {
  }

  /** The checks of an update, field by field. */
  predicate Updatable(env: Env, row: Trigger, p: UpdateRequest) {
    && (p.targetUrl.Some? ==> env.urlOk(p.targetUrl.value))
    && (p.status.Some? ==> p.status.value in {"enabled", "disabled"})
    && (p.condition.Some? ==>
          PrepareCondition(env, row.service, p.condition.value, BuilderValueType(env, row.service, row.metricName)).Some?)
    && (p.cooldown.Some? ==> p.cooldown.value >= 0)
  }

  lemma UpdatableIsAccepted(env: Env, row: Trigger, p: UpdateRequest)
    ensures Updatable(env, row, p) <==> AcceptsUpdate(env, row, p)
  {
  }

  /**
   The first half of an update opens its handler exactly when the owner's
   trigger is live and every named field passes its check, and leaves pending
   the row with the named fields changed and the others as they were read.
  */
  lemma UpdateReads(env: Env, s: State, h: nat, id: string, owner: string, body: UpdateRequest)
    requires h !in s.pending && id != "" && owner != ""
    ensures var s' := Next(env, s, ReadForUpdate(h, id, owner, body));
            && s'.db == s.db
            && (h in s'.pending <==>
                  && id in s.db.triggers && s.db.triggers[id].owner == owner
                  && s.db.triggers[id].status in {Enabled, Disabled, Failed} && Updatable(env, s.db.triggers[id], body))
            && (h in s'.pending ==> s'.pending[h].Update? && Carries(s'.pending[h].row, s.db.triggers[id], body))
  {
    FindsExactly(s.db, id, owner);
    if id in s.db.triggers && AcceptsUpdate(env, s.db.triggers[id], body) { UpdatedCarries(env, s.db.triggers[id], body); }
    hide Updated, Carries, GetTrigger;
  }

  /** The first halves of a delete and, if access is granted, of a subscription open exactly for the owner of a live trigger. */
  lemma OwnerReads(env: Env, s: State, h: nat, id: string, owner: string, asset: string, granted: bool)
    requires h !in s.pending && id != "" && owner != ""
    ensures var owns := id in s.db.triggers && s.db.triggers[id].owner == owner
                        && s.db.triggers[id].status in {Enabled, Disabled, Failed};
            && Next(env, s, ReadForDelete(h, id, owner)).pending == (if owns then s.pending[h := Delete(id)] else s.pending)
            && Next(env, s, ReadForSubscribe(h, id, owner, asset, granted)).pending
               == if owns && granted then s.pending[h := AddSubscription(asset, id)] else s.pending
  {
    FindsExactly(s.db, id, owner);
  }

  // ---- Leaving `deleted` and entering `failed` ----

  predicate StatusIs(db: Db, id: string, status: Status) {
    id in db.triggers && db.triggers[id].status == status
  }

  /** The step writes back a row of id that was read earlier, and neither the column nor the name index refuses it. */
  predicate WritesBack(env: Env, s: State, step: Step, id: string, status: Status) {
    match Performed(env, s, step)
    case Some(Update(row)) =>
      && row.id == id && row.status == status
      && FitsInt4(row.cooldown) && !NameTaken(s.db, id, row.owner, row.displayName)
    case _ => false
  }

  /** The step counts a failure of the owner's live trigger that reaches the threshold within the column's range. */
  predicate ReachesThreshold(env: Env, s: State, step: Step, id: string) {
    match Performed(env, s, step)
    case Some(Increment(i, owner)) =>
      && i == id && GetTrigger(s.db, id, owner).Ok?
      && env.maxFailures <= s.db.triggers[id].failures + 1 <= INT4_MAX
    case _ => false
  }

  /** A row written back goes through unless the column or the name index refuses it. */
  lemma UpdateGoesThrough(env: Env, s: State, step: Step, row: Trigger)
    requires HandlersOk(env, s) && Performed(env, s, step) == Some(Update(row))
    ensures row.id in s.db.triggers && row.status != Deleted
    ensures Apply(s.db, Update(row), env.maxFailures).result.Ok?
            <==> FitsInt4(row.cooldown) && !NameTaken(s.db, row.id, row.owner, row.displayName)
  {
    assert PendingOk(env, s.db, Update(row));
    hide NameTaken, AcceptsCondition;
  }

  lemma IncrementGoesThrough(env: Env, s: State, id: string, owner: string)
    requires HandlersOk(env, s)
    ensures Apply(s.db, Increment(id, owner), env.maxFailures).result.Ok?
            <==> GetTrigger(s.db, id, owner).Ok? && s.db.triggers[id].failures < INT4_MAX
  {
    if GetTrigger(s.db, id, owner).Ok? { IncrementCommits(s.db, s.history, id, owner, env.maxFailures); }
  }

  /** A row that exists changes as its own last write says. */
  lemma RowAfterStep(env: Env, s: State, step: Step, id: string)
    requires HandlersOk(env, s) && id in s.db.triggers
    ensures var s' := Next(env, s, step);
            && id in s'.db.triggers && s.db.triggers[id].id == id
            && s'.db.triggers[id] ==
               match Performed(env, s, step)
               case None => s.db.triggers[id]
               case Some(op) =>
                 if Apply(s.db, op, env.maxFailures).result.Ok?
                 then RowAfter(s.db.triggers[id], op, env.maxFailures) else s.db.triggers[id]
  {
    assert RowOk(s.db.triggers[id], id, s.history, env.maxFailures);
    match Performed(env, s, step)
    case None =>
    case Some(op) =>
      hide Apply;
      RowsAfter(s.db, op, env.maxFailures, id);
  }

  lemma GoesThrough(env: Env, s: State, step: Step)
    requires HandlersOk(env, s)
    ensures match Performed(env, s, step)
            case Some(Update(row)) =>
              && row.id in s.db.triggers && row.status != Deleted
              && (Apply(s.db, Update(row), env.maxFailures).result.Ok?
                  <==> FitsInt4(row.cooldown) && !NameTaken(s.db, row.id, row.owner, row.displayName))
            case Some(Increment(id, owner)) =>
              Apply(s.db, Increment(id, owner), env.maxFailures).result.Ok?
              <==> GetTrigger(s.db, id, owner).Ok? && s.db.triggers[id].failures < INT4_MAX
            case _ => true
  {
    match Performed(env, s, step)
    case Some(Update(row)) => UpdateGoesThrough(env, s, step, row);
    case Some(Increment(id, owner)) => IncrementGoesThrough(env, s, id, owner);
    case _ =>
  }

  /** A deleted trigger comes back exactly when a row read before the delete is written after it. */
  lemma DeletedIsLeftExactlyByStaleUpdate(env: Env, s: State, step: Step, id: string)
    requires HandlersOk(env, s) && StatusIs(s.db, id, Deleted)
    ensures !StatusIs(Next(env, s, step).db, id, Deleted)
            <==> exists status :: status != Deleted && WritesBack(env, s, step, id, status)
  {
    RowAfterStep(env, s, step, id);
    GoesThrough(env, s, step);
    hide Apply, Next, NameTaken, HandlersOk;
    match Performed(env, s, step)
    case Some(Update(row)) =>
      assert WritesBack(env, s, step, id, row.status)
        <==> row.id == id && Apply(s.db, Update(row), env.maxFailures).result.Ok?;
    case _ =>
  }

  predicate IsUpdateOf(op: Op, id: string) { op.Update? && op.row.id == id }

  /** The trigger is deleted at every state of the run. */
  ghost predicate DeletedThroughout(env: Env, s: State, steps: seq<Step>, id: string)
    decreases |steps|
  {
    StatusIs(s.db, id, Deleted) && (steps == [] || DeletedThroughout(env, Next(env, s, steps[0]), steps[1..], id))
  }

  /** No update can read a deleted row. */
  lemma DeletedIsNotRead(env: Env, s: State, step: Step, id: string, h: nat)
    requires HandlersOk(env, s) && StatusIs(s.db, id, Deleted)
    requires h in PendingAfter(env, s, step) && IsUpdateOf(PendingAfter(env, s, step)[h], id)
    ensures h in s.pending && s.pending[h] == PendingAfter(env, s, step)[h]
  {
    if step.ReadForUpdate? && GetTrigger(s.db, step.id, step.owner).Ok? {
      assert RowOk(s.db.triggers[step.id], step.id, s.history, env.maxFailures);
    }
  }

  /**
   Whatever brings a trigger back, after any run in which it was deleted: the
   second half of an update that had already read the row when that run began.
  */
  lemma {:induction false} RevivedOnlyByEarlierRead(env: Env, s: State, steps: seq<Step>, step: Step, id: string)
    requires env.maxFailures >= 1 && HandlersOk(env, s) && DeletedThroughout(env, s, steps, id)
    requires !StatusIs(Next(env, Run(env, s, steps), step).db, id, Deleted)
    ensures step.Commit? && step.h in s.pending && IsUpdateOf(s.pending[step.h], id)
    ensures var end := Run(env, s, steps); step.h in end.pending && end.pending[step.h] == s.pending[step.h]
    decreases |steps|
  {
    if steps == [] {
      DeletedIsLeftExactlyByStaleUpdate(env, s, step, id);
    } else {
      var s' := Next(env, s, steps[0]);
      NextKeeps(env, s, steps[0]);
      RevivedOnlyByEarlierRead(env, s', steps[1..], step, id);
      assert s'.pending == PendingAfter(env, s, steps[0]);
      hide Next;
      DeletedIsNotRead(env, s, steps[0], id, step.h);
    }
  }

  /** A trigger becomes failed exactly by reaching the threshold or by writing back a row read as failed. */
  lemma FailedIsEnteredExactlyBy(env: Env, s: State, step: Step, id: string)
    requires HandlersOk(env, s) && id in s.db.triggers && !StatusIs(s.db, id, Failed)
    ensures StatusIs(Next(env, s, step).db, id, Failed)
            <==> ReachesThreshold(env, s, step, id) || WritesBack(env, s, step, id, Failed)
  {
    RowAfterStep(env, s, step, id);
    GoesThrough(env, s, step);
    hide Apply, Next, NameTaken, HandlersOk, GetTrigger;
  }

  // ---- Orphan subscriptions ----

  predicate Orphan(db: Db, sub: Subscription) {
    sub in db.subs && (sub.triggerId in db.triggers ==> db.triggers[sub.triggerId].status == Deleted)
  }

  /** The step adds a subscription of a trigger that is deleted by now. */
  predicate SubscribesDeleted(env: Env, s: State, step: Step) {
    match Performed(env, s, step)
    case Some(AddSubscription(asset, id)) =>
      asset != "" && id != "" && StatusIs(s.db, id, Deleted) && Subscription(asset, id) !in s.db.subs
    case _ => false
  }

  /** An operation on a state without orphans leaves this pair an orphan exactly when it adds it to a deleted trigger. */
  lemma OrphanAfter(env: Env, s: State, op: Op, sub: Subscription)
    requires HandlersOk(env, s) && (forall other :: !Orphan(s.db, other))
    requires op.Update? ==> op.row.status != Deleted
    ensures Orphan(Apply(s.db, op, env.maxFailures).db, sub)
            <==> op == AddSubscription(sub.asset, sub.triggerId) && sub.asset != "" && sub.triggerId != ""
                 && StatusIs(s.db, sub.triggerId, Deleted) && sub !in s.db.subs
  {
    assert !Orphan(s.db, sub);
    if sub.triggerId in s.db.triggers {
      assert RowOk(s.db.triggers[sub.triggerId], sub.triggerId, s.history, env.maxFailures);
    }
    SubsAfter(s.db, op, env.maxFailures, sub);
    hide Orphan;
    RowsAfter(s.db, op, env.maxFailures, sub.triggerId);
    hide Apply;
    assert Orphan(s.db, sub) <==>
        sub in s.db.subs && (sub.triggerId in s.db.triggers ==> s.db.triggers[sub.triggerId].status == Deleted);
  }

  /**
   While no orphan exists, a step makes one exactly when it is a subscription
   that goes through for a trigger deleted since its owner check.
  */
  lemma OrphansArriveExactlyBy(env: Env, s: State, step: Step)
    requires HandlersOk(env, s) && forall sub :: !Orphan(s.db, sub)
    ensures (exists sub :: Orphan(Next(env, s, step).db, sub)) <==> SubscribesDeleted(env, s, step)
  {
    match Performed(env, s, step)
    case None =>
    case Some(op) =>
      assert op.Update? ==> PendingOk(env, s.db, op);
      hide Orphan, Apply;
      forall sub ensures Orphan(Next(env, s, step).db, sub)
            <==> op == AddSubscription(sub.asset, sub.triggerId) && sub.asset != "" && sub.triggerId != ""
                 && StatusIs(s.db, sub.triggerId, Deleted) && sub !in s.db.subs
      {
        OrphanAfter(env, s, op, sub);
      }
      if SubscribesDeleted(env, s, step) { assert Orphan(Next(env, s, step).db, Subscription(op.asset, op.id)); }
  }

  // ---- Handlers one at a time ----

  /** While a handler is open no other one opens or registers; deliveries go on. */
  predicate Admitted(s: State, step: Step) {
    s.pending == map[] || step.Commit? || step.Abandon? || step.Write?
  }

  ghost predicate Serial(env: Env, s: State, steps: seq<Step>)
    decreases |steps|
  {
    steps == [] || (Admitted(s, steps[0]) && Serial(env, Next(env, s, steps[0]), steps[1..]))
  }

  /** What a pending update or subscription was read from is not deleted. */
  predicate PendingIsLive(db: Db, op: Op) {
    match op
    case Update(row) => row.id in db.triggers && db.triggers[row.id].status != Deleted
    case AddSubscription(_, id) => id in db.triggers && db.triggers[id].status != Deleted
    case _ => true
  }

  ghost predicate SerialOk(env: Env, s: State) {
    && HandlersOk(env, s)
    && (forall h1, h2 :: h1 in s.pending && h2 in s.pending ==> h1 == h2)
    && (forall h :: h in s.pending ==> PendingIsLive(s.db, s.pending[h]))
    && (forall sub :: !Orphan(s.db, sub))
  }

  /** A delivery's write deletes nothing. */
  lemma DeliveryDeletesNothing(env: Env, s: State, step: Step, id: string)
    requires HandlersOk(env, s) && step.Write? && id in s.db.triggers && s.db.triggers[id].status != Deleted
    ensures id in Next(env, s, step).db.triggers && Next(env, s, step).db.triggers[id].status != Deleted
  {
    RowAfterStep(env, s, step, id);
    hide Apply, Next, HandlersOk;
  }

  /** One handler is open at most, and the row it read is not deleted when it writes. */
  lemma PendingStaysLive(env: Env, s: State, step: Step)
    requires env.maxFailures >= 1 && SerialOk(env, s) && Admitted(s, step)
    ensures var s' := Next(env, s, step);
            && (forall h1, h2 :: h1 in s'.pending && h2 in s'.pending ==> h1 == h2)
            && (forall h :: h in s'.pending ==> PendingIsLive(s'.db, s'.pending[h]))
  {
    if step.Write? {
      assert Next(env, s, step).pending == s.pending;
      hide Next, HandlersOk, Orphan;
      forall h | h in s.pending ensures PendingIsLive(Next(env, s, step).db, s.pending[h]) {
        match s.pending[h]
        case Update(row) => DeliveryDeletesNothing(env, s, step, row.id);
        case AddSubscription(_, id) => DeliveryDeletesNothing(env, s, step, id);
        case _ =>
      }
    }
  }

  lemma DeletedStays(env: Env, s: State, step: Step, id: string)
    requires HandlersOk(env, s) && StatusIs(s.db, id, Deleted)
    requires step.Commit? && step.h in s.pending ==> PendingIsLive(s.db, s.pending[step.h])
    ensures StatusIs(Next(env, s, step).db, id, Deleted)
  {
    DeletedIsLeftExactlyByStaleUpdate(env, s, step, id);
    hide Next, HandlersOk, NameTaken;
  }

  /** Deleted is not left, and no orphan arrives. */
  lemma SerialStepKeeps(env: Env, s: State, step: Step)
    requires env.maxFailures >= 1 && SerialOk(env, s) && Admitted(s, step)
    ensures SerialOk(env, Next(env, s, step))
    ensures forall id :: StatusIs(s.db, id, Deleted) ==> StatusIs(Next(env, s, step).db, id, Deleted)
  {
    NextKeeps(env, s, step);
    PendingStaysLive(env, s, step);
    OrphansArriveExactlyBy(env, s, step);
    assert step.Commit? && step.h in s.pending ==> PendingIsLive(s.db, s.pending[step.h]);
    hide Next, HandlersOk, Orphan, StatusIs, PendingIsLive;
    NoneSubscribesDeleted(env, s, step);
    forall id | StatusIs(s.db, id, Deleted) { DeletedStays(env, s, step, id); }
  }

  lemma NoneSubscribesDeleted(env: Env, s: State, step: Step)
    requires step.Commit? && step.h in s.pending ==> PendingIsLive(s.db, s.pending[step.h])
    ensures !SubscribesDeleted(env, s, step)
  {
  }

  /**
   With handlers one at a time, and deliveries at any moment: deleted is
   absorbing and every subscription names a live trigger.
  */
  lemma {:induction false} SerialRunKeeps(env: Env, s: State, steps: seq<Step>)
    requires env.maxFailures >= 1 && SerialOk(env, s) && Serial(env, s, steps)
    ensures SerialOk(env, Run(env, s, steps))
    ensures forall id :: StatusIs(s.db, id, Deleted) ==> StatusIs(Run(env, s, steps).db, id, Deleted)
    decreases |steps|
  {
    if steps != [] {
      SerialStepKeeps(env, s, steps[0]);
      SerialRunKeeps(env, Next(env, s, steps[0]), steps[1..]);
    }
  }

  // ---- Handlers that nothing interrupts ----

  /** While a handler is open not even a delivery writes. */
  predicate Undisturbed(s: State, step: Step) {
    s.pending == map[] || step.Commit? || step.Abandon?
  }

  ghost predicate UndisturbedRun(env: Env, s: State, steps: seq<Step>)
    decreases |steps|
  {
    steps == [] || (Undisturbed(s, steps[0]) && UndisturbedRun(env, Next(env, s, steps[0]), steps[1..]))
  }

  /** A pending update that will make its row failed was read from a failed row, which still is. */
  predicate PendingIsCurrent(db: Db, op: Op) {
    op.Update? && op.row.status == Failed ==> StatusIs(db, op.row.id, Failed)
  }

  ghost predicate UndisturbedOk(env: Env, s: State) {
    && HandlersOk(env, s)
    && (forall h1, h2 :: h1 in s.pending && h2 in s.pending ==> h1 == h2)
    && (forall h :: h in s.pending ==> PendingIsCurrent(s.db, s.pending[h]))
  }

  lemma UndisturbedStep(env: Env, s: State, step: Step)
    requires env.maxFailures >= 1 && UndisturbedOk(env, s) && Undisturbed(s, step)
    ensures UndisturbedOk(env, Next(env, s, step))
  {
    NextKeeps(env, s, step);
    hide HandlersOk;
  }

  lemma {:induction false} UndisturbedRunKeeps(env: Env, s: State, steps: seq<Step>)
    requires env.maxFailures >= 1 && UndisturbedOk(env, s) && UndisturbedRun(env, s, steps)
    ensures UndisturbedOk(env, Run(env, s, steps))
    decreases |steps|
  {
    if steps != [] {
      UndisturbedStep(env, s, steps[0]);
      UndisturbedRunKeeps(env, Next(env, s, steps[0]), steps[1..]);
    }
  }

  lemma OnlyThresholdFails(env: Env, s: State, step: Step, id: string)
    requires UndisturbedOk(env, s) && id in s.db.triggers
    requires !StatusIs(s.db, id, Failed) && StatusIs(Next(env, s, step).db, id, Failed)
    ensures ReachesThreshold(env, s, step, id)
  {
    FailedIsEnteredExactlyBy(env, s, step, id);
    assert step.Commit? && step.h in s.pending ==> PendingIsCurrent(s.db, s.pending[step.h]);
    hide Next, HandlersOk, NameTaken;
  }

  lemma CountsAfter(env: Env, s: State, step: Step, id: string)
    requires env.maxFailures >= 1 && HandlersOk(env, s) && id in s.db.triggers && ReachesThreshold(env, s, step, id)
    ensures ConsecutiveFailures(Next(env, s, step).history, id) >= env.maxFailures
  {
    NextKeeps(env, s, step);
    RowAfterStep(env, s, step, id);
    IncrementGoesThrough(env, s, id, Performed(env, s, step).value.owner);
    var s' := Next(env, s, step);
    assert RowOk(s'.db.triggers[id], id, s'.history, env.maxFailures);
    hide Next, Apply;
  }

  /**
   When nothing runs between a handler's halves, the step that makes a trigger
   failed commits at least the `maxFailures`-th increment since its last
   committed reset, update or create.
  */
  lemma FailsOnlyAfterThreshold(env: Env, steps: seq<Step>, step: Step, id: string)
    requires env.maxFailures >= 1 && UndisturbedRun(env, INITIAL, steps)
    requires var s := Run(env, INITIAL, steps);
             Undisturbed(s, step) && id in s.db.triggers
             && !StatusIs(s.db, id, Failed) && StatusIs(Next(env, s, step).db, id, Failed)
    ensures ConsecutiveFailures(Next(env, Run(env, INITIAL, steps), step).history, id) >= env.maxFailures
  {
    UndisturbedRunKeeps(env, INITIAL, steps);
    var s := Run(env, INITIAL, steps);
    OnlyThresholdFails(env, s, step, id);
    CountsAfter(env, s, step, id);
  }

  // ---- Why the single-step assumption is needed ----

  /** What an update wrote before the delete commits goes through after it under the same conditions. */
  lemma WriteAfterDelete(db: Db, id: string, row: Trigger)
    requires id in db.triggers && row.id == id && row.status != Deleted && row.failures == 0
    requires db.triggers[id].owner == row.owner
    ensures var o := UpdateTrigger(CommitDelete(db, id).db, row);
            && (o.result.Ok? <==> FitsInt4(row.cooldown) && !NameTaken(db, id, row.owner, row.displayName))
            && (o.result.Ok? <==> !StatusIs(o.db, id, Deleted))
  {
    var gone := CommitDelete(db, id).db;
    assert NameTaken(gone, id, row.owner, row.displayName) <==> NameTaken(db, id, row.owner, row.displayName) by {
      if other :| other in db.triggers && other != id && db.triggers[other].owner == row.owner
                  && db.triggers[other].displayName == row.displayName && db.triggers[other].status != Deleted {
        assert gone.triggers[other] == db.triggers[other];
      }
    }
    hide NameTaken;
  }

  /** A second half commits what the first half left pending. */
  lemma CommitWrites(env: Env, s: State, h: nat)
    requires h in s.pending && (s.pending[h].Update? || s.pending[h].Delete?)
    ensures var s' := Next(env, s, Commit(h));
            && s'.pending == s.pending - {h}
            && s'.db == match s.pending[h] case Delete(id) => CommitDelete(s.db, id).db
                                           case Update(row) => UpdateTrigger(s.db, row).db
                                           case _ => s.db
  {
    hide CommitDelete, UpdateTrigger;
  }

  /** An update and a delete that read the row one after the other are both pending on it. */
  lemma BothRead(env: Env, s: State, id: string, owner: string, body: UpdateRequest)
    requires s.pending == map[] && GetTrigger(s.db, id, owner).Ok? && AcceptsUpdate(env, s.db.triggers[id], body)
    ensures Next(env, Next(env, s, ReadForUpdate(0, id, owner, body)), ReadForDelete(1, id, owner))
            == s.(pending := map[0 := Update(Updated(s.db.triggers[id], body)), 1 := Delete(id)])
  {
    hide AcceptsUpdate, Updated, Apply;
    var s1 := Next(env, s, ReadForUpdate(0, id, owner, body));
    assert s1 == s.(pending := map[0 := Update(Updated(s.db.triggers[id], body))]);
  }

  /**
   Any update of any live trigger with a delete between its two halves brings
   the trigger back, exactly when its own write fits the column and the name index.
  */
  lemma StaleUpdateRevives(env: Env, s: State, id: string, owner: string, body: UpdateRequest)
    requires HandlersOk(env, s) && s.pending == map[]
    requires GetTrigger(s.db, id, owner).Ok? && AcceptsUpdate(env, s.db.triggers[id], body)
    ensures var run := [ReadForUpdate(0, id, owner, body), ReadForDelete(1, id, owner), Commit(1), Commit(0)];
            var row := Updated(s.db.triggers[id], body);
            && StatusIs(Run(env, s, run[..3]).db, id, Deleted)
            && (!StatusIs(Run(env, s, run).db, id, Deleted)
                <==> FitsInt4(row.cooldown) && !NameTaken(s.db, id, owner, row.displayName))
  {
    assert RowOk(s.db.triggers[id], id, s.history, env.maxFailures);
    var row := Updated(s.db.triggers[id], body);
    var run := [ReadForUpdate(0, id, owner, body), ReadForDelete(1, id, owner), Commit(1), Commit(0)];
    WriteAfterDelete(s.db, id, row);
    BothRead(env, s, id, owner, body);
    RunOfFour(env, s, run);
    var s2 := s.(pending := map[0 := Update(row), 1 := Delete(id)]);
    CommitWrites(env, s2, 1);
    CommitWrites(env, Next(env, s2, Commit(1)), 0);
    hide Next, Run, HandlersOk, NameTaken, AcceptsUpdate, Updated, UpdateTrigger;
  }

  lemma ResetWrites(env: Env, s: State, id: string)
    requires id in s.db.triggers && s.db.triggers[id].id == id && s.db.triggers[id].failures > 0
    ensures var s' := Next(env, s, Write(Reset(id)));
            && s'.pending == s.pending
            && s'.db == s.db.(triggers := s.db.triggers[id := RowAfter(s.db.triggers[id], Reset(id), env.maxFailures)])
            && forall owner, name :: NameTaken(s'.db, id, owner, name) <==> NameTaken(s.db, id, owner, name)
  {
    var s' := Next(env, s, Write(Reset(id)));
    forall other | other != id && other in s.db.triggers ensures s'.db.triggers[other] == s.db.triggers[other] {}
  }

  /**
   One handler and one delivery: a success that clears the count between the
   halves of an update that names no status. The update makes the trigger failed
   again, with no failure counted, exactly when it goes through.
  */
  lemma StaleUpdateRefails(env: Env, s: State, id: string, owner: string, body: UpdateRequest)
    requires HandlersOk(env, s) && s.pending == map[] && GetTrigger(s.db, id, owner).Ok?
    requires StatusIs(s.db, id, Failed) && s.db.triggers[id].failures > 0
    requires AcceptsUpdate(env, s.db.triggers[id], body) && body.status == None
    ensures var run := [ReadForUpdate(0, id, owner, body), Write(Reset(id)), Commit(0)];
            var row := Updated(s.db.triggers[id], body);
            && Serial(env, s, run) && StatusIs(Run(env, s, run[..2]).db, id, Enabled)
            && id in Run(env, s, run).db.triggers && Run(env, s, run).db.triggers[id].failures == 0
            && (StatusIs(Run(env, s, run).db, id, Failed)
                <==> FitsInt4(row.cooldown) && !NameTaken(s.db, id, owner, row.displayName))
  {
    assert RowOk(s.db.triggers[id], id, s.history, env.maxFailures);
    var row := Updated(s.db.triggers[id], body);
    var run := [ReadForUpdate(0, id, owner, body), Write(Reset(id)), Commit(0)];
    var s1 := Next(env, s, run[0]);
    assert s1 == s.(pending := map[0 := Update(row)]);
    var s2 := Next(env, s1, run[1]);
    ResetWrites(env, s1, id);
    CommitWrites(env, s2, 0);
    var s3 := Next(env, s2, run[2]);
    hide NameTaken, AcceptsUpdate, HandlersOk, Next;
    RunOfThree(env, s, run);
  }

  lemma RunOfThree(env: Env, s: State, run: seq<Step>)
    requires |run| == 3
    ensures Run(env, s, run[..2]) == Next(env, Next(env, s, run[0]), run[1])
    ensures Run(env, s, run) == Next(env, Run(env, s, run[..2]), run[2])
    ensures Admitted(s, run[0]) && Admitted(Next(env, s, run[0]), run[1]) && Admitted(Run(env, s, run[..2]), run[2])
            ==> Serial(env, s, run)
  {
    var s1 := Next(env, s, run[0]);
    var s2 := Next(env, s1, run[1]);
    assert run[..2][1..] == [run[1]] && [run[1]][1..] == [];
    assert run[1..][1..] == [run[2]] && [run[2]][1..] == [];
    assert Run(env, s1, [run[1]]) == s2;
    assert Run(env, s2, [run[2]]) == Next(env, s2, run[2]);
    assert Run(env, s1, run[1..]) == Run(env, s2, [run[2]]);
    if Admitted(s2, run[2]) {
      assert Serial(env, s2, [run[2]]);
      assert Admitted(s1, run[1]) ==> Serial(env, s1, run[1..]);
    }
  }

  /** Interleaving a delete into any granted subscription leaves a subscription of a deleted trigger. */
  lemma LateSubscribeOrphans(env: Env, s: State, id: string, owner: string, asset: string)
    requires s.pending == map[]
    requires GetTrigger(s.db, id, owner).Ok? && asset != ""
    ensures var run := [ReadForSubscribe(0, id, owner, asset, true), ReadForDelete(1, id, owner), Commit(1), Commit(0)];
            var s' := Run(env, s, run);
            Subscription(asset, id) in s'.db.subs && StatusIs(s'.db, id, Deleted)
  {
    var run := [ReadForSubscribe(0, id, owner, asset, true), ReadForDelete(1, id, owner), Commit(1), Commit(0)];
    RunOfFour(env, s, run);
    var s1 := Next(env, s, run[0]);
    assert s1 == s.(pending := map[0 := AddSubscription(asset, id)]);
    var s2 := Next(env, s1, run[1]);
    assert s2 == s.(pending := map[0 := AddSubscription(asset, id), 1 := Delete(id)]);
    var s3 := Next(env, s2, run[2]);
    assert s3.db == CommitDelete(s.db, id).db && s3.pending == map[0 := AddSubscription(asset, id)];
    var s4 := Next(env, s3, run[3]);
    assert s4.db == Subscribe(s3.db, asset, id).db;
  }

  lemma RunOfFour(env: Env, s: State, run: seq<Step>)
    requires |run| == 4
    ensures Run(env, s, run[..3]) == Next(env, Next(env, Next(env, s, run[0]), run[1]), run[2])
    ensures Run(env, s, run) == Next(env, Run(env, s, run[..3]), run[3])
  {
    var s1 := Next(env, s, run[0]);
    var s2 := Next(env, s1, run[1]);
    var s3 := Next(env, s2, run[2]);
    assert run[..3][1..] == run[1..3] && run[1..3][1..] == run[2..3] && run[2..3][1..] == [];
    assert run[1..][1..] == run[2..] && run[2..][1..] == run[3..] && run[3..][1..] == [];
    assert Run(env, s2, run[2..3]) == s3;
    assert Run(env, s2, run[2..]) == Run(env, s3, run[3..]) == Next(env, s3, run[3]);
  }
}
