/**
 Every write to the database as a function on database states, and what holds
 of every database those writes can reach (internal/services/triggersrepo).
*/
module Store {
  import opened Wrappers
  import opened Domain

  datatype CreateRequest = CreateRequest(
    displayName: string,
    service: string,
    metricName: string,
    condition: string,
    targetUri: string,
    status: string,
    description: string,
    cooldown: int,
    owner: string)

  predicate ValidRequest(req: CreateRequest) {
    && req.metricName != "" && req.owner != "" && req.service != "" && req.condition != ""
    && req.targetUri != "" && req.status != "" && req.cooldown >= 0
  }

  /** The partial unique index: another live trigger of the same owner carries this name. */
  predicate NameTaken(db: Db, id: string, owner: string, name: string) {
    exists other :: other in db.triggers && other != id && db.triggers[other].owner == owner
                    && db.triggers[other].displayName == name && db.triggers[other].status != Deleted
  }

  /** No other live trigger of the owner has this name. */
  ghost predicate NameFree(db: Db, id: string, owner: string, name: string) {
    forall other :: other in db.triggers && other != id
                    && db.triggers[other].owner == owner && db.triggers[other].status != Deleted
                    ==> db.triggers[other].displayName != name
  }

  /** The row holds what was requested, column by column; without a name it is named by its id. */
  predicate AsRequested(row: Trigger, id: string, req: CreateRequest) {
    && row.id == id && row.owner == req.owner && row.service == req.service && row.metricName == req.metricName
    && row.condition == req.condition && row.targetUri == req.targetUri && row.description == req.description
    && row.cooldown == req.cooldown && StatusText(row.status) == req.status && row.failures == 0
    && (req.displayName != "" ==> row.displayName == req.displayName)
    && (req.displayName == "" ==> row.displayName == id)
  }

  /** What validation, the columns and the two unique indexes demand of a new trigger. */
  ghost predicate Creatable(db: Db, id: string, req: CreateRequest) {
    && "" !in {req.metricName, req.owner, req.service, req.condition, req.targetUri}
    && 0 <= req.cooldown <= INT4_MAX && req.status in {"enabled", "disabled", "failed", "deleted"}
    && id !in db.triggers
    && (req.status == "deleted" || NameFree(db, id, req.owner, if req.displayName == "" then id else req.displayName))
  }

  function NewTrigger(id: string, req: CreateRequest, status: Status): Trigger {
    Trigger(id, req.owner, if req.displayName == "" then id else req.displayName, req.service, req.metricName,
            req.condition, req.targetUri, req.description, req.cooldown, status, 0)
  }

  function CreateTrigger(db: Db, id: string, req: CreateRequest): Outcome<Trigger> {
    if !ValidRequest(req) then Outcome(db, Err(Invalid))
    else
      var status := ParseStatus(req.status);
      if !FitsInt4(req.cooldown) || status == None || id in db.triggers then Outcome(db, Err(Internal))
      else
        var row := NewTrigger(id, req, status.value);
        if row.status != Deleted && NameTaken(db, id, row.owner, row.displayName) then Outcome(db, Err(DuplicateName))
        else Outcome(db.(triggers := db.triggers[id := row]), Ok(row))
  }

  /** A create goes through exactly when nothing refuses it, and then adds the requested row and changes nothing else. */
  lemma CreatesExactly(db: Db, id: string, req: CreateRequest)
    ensures var o := CreateTrigger(db, id, req);
            && (o.result.Ok? <==> Creatable(db, id, req))
            && (o.result.Ok? ==> AsRequested(o.result.value, id, req)
                                 && o.db == db.(triggers := db.triggers[id := o.result.value]))
            && (o.result.Err? ==> o.db == db)
  {
    ParsesExactly(req.status);
  }

  /** An owner finds a live trigger, whether enabled, disabled or failed; everybody else finds none. */
  lemma FindsExactly(db: Db, id: string, owner: string)
    requires id != "" && owner != ""
    ensures var found := GetTrigger(db, id, owner);
            if id in db.triggers && db.triggers[id].owner == owner && db.triggers[id].status in {Enabled, Disabled, Failed}
            then found == Ok(db.triggers[id]) else found == Err(NotFound)
    ensures InternalGetTrigger(db, id)
            == if id in db.triggers && db.triggers[id].status in {Enabled, Disabled, Failed} then Ok(db.triggers[id])
               else Err(NotFound)
  {
  }

  function GetTrigger(db: Db, id: string, owner: string): Result<Trigger, Error> {
    if id == "" || owner == "" then Err(Invalid)
    else if id in db.triggers && db.triggers[id].owner == owner && db.triggers[id].status != Deleted
    then Ok(db.triggers[id])
    else Err(NotFound)
  }

  function InternalGetTrigger(db: Db, id: string): Result<Trigger, Error> {
    if id == "" then Err(Invalid)
    else if id in db.triggers && db.triggers[id].status != Deleted then Ok(db.triggers[id])
    else Err(NotFound)
  }

  /** Writes every column but id, owner, service and creation time. */
  function UpdateTrigger(db: Db, t: Trigger): Outcome<()> {
    if !FitsInt4(t.cooldown) || !FitsInt4(t.failures) then Outcome(db, Err(Internal))
    else if t.id !in db.triggers then Outcome(db, Err(NotFound))
    else
      var row := t.(owner := db.triggers[t.id].owner, service := db.triggers[t.id].service);
      if row.status != Deleted && NameTaken(db, row.id, row.owner, row.displayName) then Outcome(db, Err(DuplicateName))
      else Outcome(db.(triggers := db.triggers[row.id := row]), Ok(()))
  }

  function Incremented(t: Trigger, max: int): Trigger {
    t.(failures := t.failures + 1, status := if t.failures + 1 >= max then Failed else t.status)
  }

  /** One transaction holding the row's lock from the read to the commit. */
  function IncrementFailures(db: Db, id: string, owner: string, max: int): Outcome<()> {
    match GetTrigger(db, id, owner)
    case Err(e) => Outcome(db, Err(e))
    case Ok(t) => UpdateTrigger(db, Incremented(t, max))
  }

  /** One conditional update that touches no row whose count is already zero. */
  function ResetFailures(db: Db, id: string): Outcome<()> {
    if id in db.triggers && db.triggers[id].failures > 0 then
      var t := db.triggers[id];
      var row := t.(failures := 0, status := if t.status == Failed then Enabled else t.status);
      Outcome(db.(triggers := db.triggers[id := row]), Ok(()))
    else Outcome(db, Ok(()))
  }

  /** The transaction of a delete: soft-delete the row and drop its subscriptions. */
  function CommitDelete(db: Db, id: string): Outcome<()> {
    var triggers := if id in db.triggers then db.triggers[id := db.triggers[id].(status := Deleted)] else db.triggers;
    Outcome(db.(triggers := triggers, subs := set s | s in db.subs && s.triggerId != id), Ok(()))
  }

  function DeleteTrigger(db: Db, id: string, owner: string): Outcome<()> {
    if id in db.triggers && db.triggers[id].owner == owner && db.triggers[id].status != Deleted
    then CommitDelete(db, id)
    else Outcome(db, Err(Internal))
  }

  function Subscribe(db: Db, asset: string, id: string): Outcome<()> {
    if asset == "" || id == "" then Outcome(db, Err(Invalid))
    else if id !in db.triggers then Outcome(db, Err(NotFound))
    else if Subscription(asset, id) in db.subs then Outcome(db, Err(AlreadySubscribed))
    else Outcome(db.(subs := db.subs + {Subscription(asset, id)}), Ok(()))
  }

  function Unsubscribe(db: Db, id: string, asset: string): Outcome<nat> {
    if asset == "" || id == "" then Outcome(db, Err(Invalid))
    else
      Outcome(db.(subs := db.subs - {Subscription(asset, id)}),
              Ok(if Subscription(asset, id) in db.subs then 1 else 0))
  }

  function UnsubscribeAll(db: Db, id: string): Outcome<nat> {
    if id == "" then Outcome(db, Err(Invalid))
    else
      Outcome(db.(subs := set s | s in db.subs && s.triggerId != id),
              Ok(|set s | s in db.subs && s.triggerId == id|))
  }

  /** The rows removed and the rows left are all the rows there were. */
  lemma UnsubscribeAllCounts(db: Db, id: string)
    requires id != ""
    ensures var o := UnsubscribeAll(db, id);
            |o.db.subs| + o.result.value == |db.subs| && forall s :: s in o.db.subs <==> s in db.subs && s.triggerId != id
  {
    var gone := set s | s in db.subs && s.triggerId == id;
    assert db.subs == UnsubscribeAll(db, id).db.subs + gone;
  }

  /** Inserts a log; an empty id is replaced by `freshId`. */
  function CreateLog(db: Db, log: TriggerLog, freshId: string): Outcome<()> {
    if log.asset == "" || log.triggerId == "" then Outcome(db, Err(Invalid))
    else
      var row := if log.id == "" then log.(id := freshId) else log;
      if row.triggerId !in db.triggers || (exists l :: l in db.logs && l.id == row.id) then Outcome(db, Err(Internal))
      else Outcome(db.(logs := db.logs + [row]), Ok(()))
  }

  /** A log is refused exactly when a key is missing, its trigger is unknown, or its id is used; else it is added as given. */
  lemma LogsExactly(db: Db, log: TriggerLog, freshId: string)
    ensures var o := CreateLog(db, log, freshId); var id := if log.id == "" then freshId else log.id;
            && (o.result.Ok? <==>
                  && log.asset != "" && log.triggerId in db.triggers && log.triggerId != ""
                  && forall i :: 0 <= i < |db.logs| ==> db.logs[i].id != id)
            && o.db == if o.result.Ok?
                       then db.(logs := db.logs + [TriggerLog(id, log.triggerId, log.asset, log.snapshot, log.at)]) else db
  {
  }

  // ---- Committed writes and histories ----

  datatype Op =
    | Create(id: string, req: CreateRequest)
    | Update(row: Trigger)
    | Increment(id: string, owner: string)
    | Reset(id: string)
    | Delete(id: string)
    | AddSubscription(asset: string, id: string)
    | RemoveSubscription(asset: string, id: string)
    | RemoveSubscriptions(id: string)
    | AddLog(log: TriggerLog, freshId: string)

  function Unit<T>(o: Outcome<T>): Outcome<()> {
    match o.result
    case Ok(_) => Outcome(o.db, Ok(()))
    case Err(e) => Outcome(o.db, Err(e))
  }

  function Apply(db: Db, op: Op, max: int): Outcome<()> {
    match op
    case Create(id, req) => Unit(CreateTrigger(db, id, req))
    case Update(row) => UpdateTrigger(db, row)
    case Increment(id, owner) => IncrementFailures(db, id, owner, max)
    case Reset(id) => ResetFailures(db, id)
    case Delete(id) => CommitDelete(db, id)
    case AddSubscription(asset, id) => Subscribe(db, asset, id)
    case RemoveSubscription(asset, id) => Unit(Unsubscribe(db, id, asset))
    case RemoveSubscriptions(id) => Unit(UnsubscribeAll(db, id))
    case AddLog(log, freshId) => CreateLog(db, log, freshId)
  }

  /** The history after op: it is recorded when it committed. */
  function Record(history: seq<Op>, op: Op, o: Outcome<()>): seq<Op> {
    if o.result.Ok? then history + [op] else history
  }

  /** Increments of id committed since the last create, update or reset of id. */
  function ConsecutiveFailures(history: seq<Op>, id: string): nat {
    if history == [] then 0
    else
      var earlier := ConsecutiveFailures(history[..|history| - 1], id);
      match history[|history| - 1]
      case Increment(i, _) => if i == id then earlier + 1 else earlier
      case Create(i, _) => if i == id then 0 else earlier
      case Update(row) => if row.id == id then 0 else earlier
      case Reset(i) => if i == id then 0 else earlier
      case _ => earlier
  }

  /** The caller of a plain update has cleared the failure count, as the update handler always does. */
  predicate ClearsCount(op: Op) { op.Update? ==> op.row.failures == 0 }

  /** Row by row: the key, the column range, the threshold rule, and the count's meaning. */
  predicate RowOk(t: Trigger, id: string, history: seq<Op>, max: int) {
    && t.id == id
    && FitsInt4(t.cooldown) && FitsInt4(t.failures)
    && t.failures == ConsecutiveFailures(history, id)
    && (t.failures >= max ==> t.status == Failed || t.status == Deleted)
  }

  ghost predicate RowsOk(db: Db, history: seq<Op>, max: int) {
    forall id :: id in db.triggers ==> RowOk(db.triggers[id], id, history, max)
  }

  /** The unique index and the two foreign keys hold, and log ids are keys. */
  ghost predicate KeysOk(db: Db) {
    && (forall a, b :: a in db.triggers && b in db.triggers && a != b
          && db.triggers[a].status != Deleted && db.triggers[b].status != Deleted
          && db.triggers[a].owner == db.triggers[b].owner
          ==> db.triggers[a].displayName != db.triggers[b].displayName)
    && (forall s :: s in db.subs ==> s.triggerId in db.triggers)
    && (forall i :: 0 <= i < |db.logs| ==> db.logs[i].triggerId in db.triggers)
    && (forall i, j :: 0 <= i < j < |db.logs| ==> db.logs[i].id != db.logs[j].id)
  }

  ghost predicate Invariant(db: Db, history: seq<Op>, max: int) {
    RowsOk(db, history, max) && KeysOk(db)
  }

  /** A fresh id has no failures on record: nothing but its own operations count. */
  lemma {:induction false} ExtendHistory(history: seq<Op>, op: Op, id: string)
    ensures ConsecutiveFailures(history + [op], id) ==
            match op
            case Increment(i, _) => ConsecutiveFailures(history, id) + (if i == id then 1 else 0)
            case Create(i, _) => if i == id then 0 else ConsecutiveFailures(history, id)
            case Update(row) => if row.id == id then 0 else ConsecutiveFailures(history, id)
            case Reset(i) => if i == id then 0 else ConsecutiveFailures(history, id)
            case _ => ConsecutiveFailures(history, id)
  {
  }

  /** An increment of a live row never meets the name index: only the column's range can refuse it. */
  lemma IncrementCommits(db: Db, history: seq<Op>, id: string, owner: string, max: int)
    requires Invariant(db, history, max) && GetTrigger(db, id, owner).Ok?
    ensures IncrementFailures(db, id, owner, max).result.Ok? <==> db.triggers[id].failures < INT4_MAX
  {
    assert RowOk(db.triggers[id], id, history, max);
  }

  /** What a committed write does to a row that exists: it depends on that row alone. */
  function RowAfter(row: Trigger, op: Op, max: int): Trigger {
    match op
    case Update(t) => if t.id == row.id then t.(owner := row.owner, service := row.service) else row
    case Increment(id, _) => if id == row.id then Incremented(row, max) else row
    case Reset(id) =>
      if id == row.id && row.failures > 0
      then row.(failures := 0, status := if row.status == Failed then Enabled else row.status) else row
    case Delete(id) => if id == row.id then row.(status := Deleted) else row
    case _ => row
  }

  /** Rows are written one by one, never removed, and only a create adds one. */
  lemma RowsAfter(db: Db, op: Op, max: int, id: string)
    requires forall i :: i in db.triggers ==> db.triggers[i].id == i
    ensures var o := Apply(db, op, max);
            if id in db.triggers then
              && id in o.db.triggers
              && o.db.triggers[id] == (if o.result.Ok? then RowAfter(db.triggers[id], op, max) else db.triggers[id])
            else id in o.db.triggers ==>
              op.Create? && op.id == id && o.result.Ok? && AsRequested(o.db.triggers[id], id, op.req)
  {
  }

  /** A subscription was there before, or the write added it; a delete drops those of its trigger. */
  lemma SubsAfter(db: Db, op: Op, max: int, sub: Subscription)
    ensures var adds := op == AddSubscription(sub.asset, sub.triggerId) && sub.asset != "" && sub.triggerId in db.triggers;
            && (sub in Apply(db, op, max).db.subs ==> (sub in db.subs && op != Delete(sub.triggerId)) || adds)
            && (adds && sub.triggerId != "" ==> sub in Apply(db, op, max).db.subs)
  {
  }

  /** Names of live rows stay distinct per owner: a write either keeps the name or passed the unique index. */
  lemma NamesPreserved(db: Db, op: Op, max: int, a: string, b: string)
    requires KeysOk(db) && a != b
    requires forall id :: id in db.triggers ==> db.triggers[id].id == id
    requires var db' := Apply(db, op, max).db;
             && a in db'.triggers && b in db'.triggers && db'.triggers[a].owner == db'.triggers[b].owner
             && db'.triggers[a].status != Deleted && db'.triggers[b].status != Deleted
    ensures var db' := Apply(db, op, max).db; db'.triggers[a].displayName != db'.triggers[b].displayName
  {
  }

  /** The foreign keys and the log key: subscriptions and logs are added only for rows that exist, logs only under a new id. */
  lemma ReferencesPreserved(db: Db, op: Op, max: int)
    requires KeysOk(db)
    ensures var db' := Apply(db, op, max).db;
            && (forall s :: s in db'.subs ==> s.triggerId in db'.triggers)
            && (forall i :: 0 <= i < |db'.logs| ==> db'.logs[i].triggerId in db'.triggers)
            && (forall i, j :: 0 <= i < j < |db'.logs| ==> db'.logs[i].id != db'.logs[j].id)
  {
  }

  lemma KeysPreserved(db: Db, op: Op, max: int)
    requires KeysOk(db)
    requires forall id :: id in db.triggers ==> db.triggers[id].id == id
    ensures KeysOk(Apply(db, op, max).db)
  {
    ReferencesPreserved(db, op, max);
    hide Apply;
    var db' := Apply(db, op, max).db;
    forall a, b | a in db'.triggers && b in db'.triggers && a != b
                  && db'.triggers[a].status != Deleted && db'.triggers[b].status != Deleted
                  && db'.triggers[a].owner == db'.triggers[b].owner
      ensures db'.triggers[a].displayName != db'.triggers[b].displayName
    {
      NamesPreserved(db, op, max, a, b);
    }
  }

  /** A write that commits fits the integer columns. */
  lemma CommitFits(db: Db, op: Op, max: int)
    requires Apply(db, op, max).result.Ok? && forall id :: id in db.triggers ==> db.triggers[id].id == id
    ensures match op
            case Create(_, req) => FitsInt4(req.cooldown)
            case Update(t) => FitsInt4(t.cooldown) && FitsInt4(t.failures)
            case Increment(id, _) => id in db.triggers && FitsInt4(db.triggers[id].failures + 1)
            case _ => true
  {
    hide NameTaken;
  }

  /** The row's count and status after a write, and its count in the history. */
  lemma RowPreserved(db: Db, history: seq<Op>, op: Op, max: int, id: string)
    requires RowsOk(db, history, max) && ClearsCount(op) && max >= 1 && id in Apply(db, op, max).db.triggers
    ensures var o := Apply(db, op, max); RowOk(o.db.triggers[id], id, Record(history, op, o), max)
  {
    assert forall i :: i in db.triggers ==> RowOk(db.triggers[i], i, history, max);
    ExtendHistory(history, op, id);
    RowsAfter(db, op, max, id);
    if Apply(db, op, max).result.Ok? { CommitFits(db, op, max); }
    hide RowsOk, ConsecutiveFailures, NameTaken, Apply;
  }

  lemma RowsPreserved(db: Db, history: seq<Op>, op: Op, max: int)
    requires RowsOk(db, history, max) && ClearsCount(op) && max >= 1
    ensures var o := Apply(db, op, max); RowsOk(o.db, Record(history, op, o), max)
  {
    hide Apply, RowOk, Record;
    var o := Apply(db, op, max);
    forall id | id in o.db.triggers ensures RowOk(o.db.triggers[id], id, Record(history, op, o), max) {
      RowPreserved(db, history, op, max, id);
    }
  }

  /** Every write keeps the invariant, whether it commits or fails. */
  lemma InvariantPreserved(db: Db, history: seq<Op>, op: Op, max: int)
    requires Invariant(db, history, max) && ClearsCount(op) && max >= 1
    ensures var o := Apply(db, op, max); Invariant(o.db, Record(history, op, o), max)
  {
    KeysPreserved(db, op, max);
    RowsPreserved(db, history, op, max);
  }

  /** A caller with a lower threshold than the store's may count failures too. */
  lemma LowerThresholdPreserves(db: Db, history: seq<Op>, id: string, owner: string, lower: int, max: int)
    requires Invariant(db, history, max) && lower <= max
    ensures var op := Increment(id, owner);
            var o := Apply(db, op, lower); Invariant(o.db, Record(history, op, o), max)
  {
    var op := Increment(id, owner);
    var o := Apply(db, op, lower);
    KeysPreserved(db, op, lower);
    hide KeysOk;
    forall i | i in o.db.triggers ensures RowOk(o.db.triggers[i], i, Record(history, op, o), max) {
      ExtendHistory(history, op, i);
      if i in db.triggers { assert RowOk(db.triggers[i], i, history, max); }
    }
  }
}
