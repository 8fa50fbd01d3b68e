/**
 Deliveries of fired webhooks and their accounting over runs
 (internal/controllers/metriclistener/metric_listener.go).
*/
module Deliveries {
  import opened Wrappers
  import opened Domain
  import opened Store
  import opened WebhookIndex
  import RefreshProtocol

  /** What sending a webhook comes to; an endpoint failure carries the webhook failure code. */
  datatype Sending = Delivered | EndpointFailure | OtherError

  datatype Payload = Payload(id: string, asset: string)

  /** One delivery of the listener, with what the outside does to it. */
  datatype Delivery = Delivery(
    trigger: Trigger,
    payload: Payload,
    snapshot: Snapshot,
    sending: Sending,
    incrementFault: bool,
    resetFault: bool,
    logFault: bool,
    now: int)

  datatype Action =
    | Sent(payloadId: string, triggerId: string, sending: Sending)
    | IncrementTried(triggerId: string)
    | ResetTried(triggerId: string)
    | LogTried(payloadId: string, triggerId: string)

  predicate ShouldAttemptWebhook(max: int, t: Trigger) { t.status == Enabled && t.failures < max }

  function LogOf(d: Delivery): TriggerLog {
    TriggerLog(d.payload.id, d.trigger.id, d.payload.asset, d.snapshot, d.now)
  }

  /** What one delivery does, in order. */
  function Actions(max: int, d: Delivery): seq<Action> {
    if !ShouldAttemptWebhook(max, d.trigger) then []
    else
      [Sent(d.payload.id, d.trigger.id, d.sending)] +
      match d.sending
      case Delivered => [ResetTried(d.trigger.id), LogTried(d.payload.id, d.trigger.id)]
      case EndpointFailure => [IncrementTried(d.trigger.id)]
      case OtherError => []
  }

  /** The writes that reach the database. */
  function Writes(max: int, d: Delivery): seq<Op> {
    if !ShouldAttemptWebhook(max, d.trigger) then []
    else
      match d.sending
      case Delivered =>
        (if d.resetFault then [] else [Reset(d.trigger.id)]) + (if d.logFault then [] else [AddLog(LogOf(d), d.payload.id)])
      case EndpointFailure => if d.incrementFault then [] else [Increment(d.trigger.id, d.trigger.owner)]
      case OtherError => []
  }

  function ApplyAll(db: Db, ops: seq<Op>, max: int): Db {
    if ops == [] then db else Apply(ApplyAll(db, ops[..|ops| - 1], max), ops[|ops| - 1], max).db
  }

  lemma TwoWrites(db: Db, a: Op, b: Op, max: int)
    ensures ApplyAll(db, [], max) == db
    ensures ApplyAll(db, [a], max) == Apply(db, a, max).db
    ensures ApplyAll(db, [a, b], max) == Apply(Apply(db, a, max).db, b, max).db
  {
  }

  lemma NoWrites(db: Db, max: int)
    ensures ApplyAll(db, [], max) == db
  {
  }

  /** Clearing a count leaves the logs alone, and a log write succeeds exactly when it adds a log. */
  lemma LogWrites(db: Db, id: string, log: TriggerLog, freshId: string, max: int)
    ensures Apply(db, Reset(id), max).db.logs == db.logs
    ensures CreateLog(db, log, freshId).result.Ok? <==> |Apply(db, AddLog(log, freshId), max).db.logs| == |db.logs| + 1
  {
  }

  /** A delivery is attempted for an enabled trigger below the threshold, and then does what its outcome asks for. */
  lemma ActsExactly(max: int, d: Delivery, a: Action)
    ensures a in Actions(max, d) <==>
            && d.trigger.status == Enabled && d.trigger.failures < max
            && match a
               case Sent(payloadId, id, sending) => payloadId == d.payload.id && id == d.trigger.id && sending == d.sending
               case IncrementTried(id) => id == d.trigger.id && d.sending == EndpointFailure
               case ResetTried(id) => id == d.trigger.id && d.sending == Delivered
               case LogTried(payloadId, id) => payloadId == d.payload.id && id == d.trigger.id && d.sending == Delivered
  {
  }

  /** What an attempted delivery leaves in its trigger's row and in the logs when no write fails. */
  lemma WritesExactly(max: int, db: Db, history: seq<Op>, d: Delivery)
    requires Invariant(db, history, max) && d.trigger.id in db.triggers
    requires d.trigger.status == Enabled && d.trigger.failures < max
    ensures var row, after := db.triggers[d.trigger.id], ApplyAll(db, Writes(max, d), max);
            && (d.sending == OtherError ==> after == db)
            && (d.sending == EndpointFailure && !d.incrementFault && d.trigger.owner == row.owner && "" !in {row.id, row.owner}
                && row.status != Deleted && row.failures < INT4_MAX ==>
                  after == db.(triggers := db.triggers[row.id := row.(
                    failures := row.failures + 1, status := if row.failures + 1 >= max then Failed else row.status)]))
            && (d.sending == Delivered && !d.resetFault && row.failures > 0 ==>
                  after.triggers == db.triggers[row.id := row.(
                    failures := 0, status := if row.status == Failed then Enabled else row.status)])
            && (d.sending == Delivered && !d.logFault && "" !in {d.payload.id, d.payload.asset, row.id}
                && (forall i :: 0 <= i < |db.logs| ==> db.logs[i].id != d.payload.id) ==>
                  after.logs == db.logs + [TriggerLog(d.payload.id, row.id, d.payload.asset, d.snapshot, d.now)])
  {
    var id := d.trigger.id;
    assert RowOk(db.triggers[id], id, history, max);
    TwoWrites(db, Increment(id, d.trigger.owner), Increment(id, d.trigger.owner), max);
    TwoWrites(db, Reset(id), AddLog(LogOf(d), d.payload.id), max);
    TwoWrites(db, AddLog(LogOf(d), d.payload.id), Reset(id), max);
    LogAdds(db, d, max);
    LogAdds(Apply(db, Reset(id), max).db, d, max);
    var row, owner := db.triggers[id], d.trigger.owner;
    if id != "" && owner != "" && row.owner == owner && row.status != Deleted && row.failures < INT4_MAX {
      IncrementWrites(db, history, id, owner, max);
    }
    ResetWrites(db, id, max);
    hide ApplyAll, Apply, Invariant, LogOf;
  }

  lemma LogAdds(db: Db, d: Delivery, max: int)
    ensures var after := Apply(db, AddLog(LogOf(d), d.payload.id), max).db;
            && after.triggers == db.triggers && after.subs == db.subs
            && (d.payload.id != "" && d.payload.asset != "" && d.trigger.id != "" && d.trigger.id in db.triggers
                && (forall i :: 0 <= i < |db.logs| ==> db.logs[i].id != d.payload.id) ==>
                  after.logs == db.logs + [TriggerLog(d.payload.id, d.trigger.id, d.payload.asset, d.snapshot, d.now)])
  {
    LogsExactly(db, LogOf(d), d.payload.id);
  }

  lemma IncrementWrites(db: Db, history: seq<Op>, id: string, owner: string, max: int)
    requires Invariant(db, history, max) && id in db.triggers
    requires id != "" && owner != "" && db.triggers[id].owner == owner && db.triggers[id].status != Deleted
             && db.triggers[id].failures < INT4_MAX
    ensures var row := db.triggers[id];
            Apply(db, Increment(id, owner), max).db == db.(triggers := db.triggers[id := row.(
              failures := row.failures + 1, status := if row.failures + 1 >= max then Failed else row.status)])
  {
    assert RowOk(db.triggers[id], id, history, max);
    IncrementCommits(db, history, id, owner, max);
    hide NameTaken, Invariant;
  }

  lemma ResetWrites(db: Db, id: string, max: int)
    requires id in db.triggers
    ensures var row, after := db.triggers[id], Apply(db, Reset(id), max).db;
            && after.logs == db.logs && after.subs == db.subs && after.triggers.Keys == db.triggers.Keys
            && (row.failures > 0 ==>
                  after.triggers == db.triggers[id := row.(
                    failures := 0, status := if row.status == Failed then Enabled else row.status)])
  {
  }

  // ---- Accounting ----

  /** The kinds of action of one trigger that are counted. */
  datatype Kind = Sends | Deliveries | EndpointFailures | OtherErrors | Increments | Resets | Logs

  predicate IsOf(a: Action, id: string, kind: Kind) {
    a.triggerId == id
    && match kind
       case Sends => a.Sent?
       case Deliveries => a.Sent? && a.sending == Delivered
       case EndpointFailures => a.Sent? && a.sending == EndpointFailure
       case OtherErrors => a.Sent? && a.sending == OtherError
       case Increments => a.IncrementTried?
       case Resets => a.ResetTried?
       case Logs => a.LogTried?
  }

  function Count(actions: seq<Action>, id: string, kind: Kind): nat {
    if actions == [] then 0
    else Count(actions[..|actions| - 1], id, kind) + if IsOf(actions[|actions| - 1], id, kind) then 1 else 0
  }

  lemma {:induction false} CountConcat(a: seq<Action>, b: seq<Action>, id: string, kind: Kind)
    ensures Count(a + b, id, kind) == Count(a, id, kind) + Count(b, id, kind)
  {
    if b == [] {
      assert a + b == a;
    } else {
      assert (a + b)[..|a + b| - 1] == a + b[..|b| - 1];
      CountConcat(a, b[..|b| - 1], id, kind);
    }
  }

  ghost predicate Balanced(actions: seq<Action>, id: string) {
    && Count(actions, id, Increments) == Count(actions, id, EndpointFailures)
    && Count(actions, id, Resets) == Count(actions, id, Deliveries)
    && Count(actions, id, Logs) == Count(actions, id, Deliveries)
    && Count(actions, id, Sends)
       == Count(actions, id, Deliveries) + Count(actions, id, EndpointFailures) + Count(actions, id, OtherErrors)
  }

  /** Short traces are counted action by action. */
  lemma CountUpToThree(actions: seq<Action>, id: string, kind: Kind)
    requires |actions| <= 3
    ensures Count(actions, id, kind)
            == (if |actions| >= 1 && IsOf(actions[0], id, kind) then 1 else 0)
               + (if |actions| >= 2 && IsOf(actions[1], id, kind) then 1 else 0)
               + (if |actions| >= 3 && IsOf(actions[2], id, kind) then 1 else 0)
  {
    if |actions| >= 1 { assert actions[..1][..0] == []; }
    if |actions| >= 2 { assert actions[..2][..1] == actions[..1]; }
    if |actions| == 3 { assert actions[..3] == actions; }
    if |actions| == 2 { assert actions[..2] == actions; }
    if |actions| == 1 { assert actions[..1] == actions; }
    hide IsOf;
  }

  lemma BalancedDelivery(max: int, d: Delivery, id: string)
    ensures Balanced(Actions(max, d), id)
  {
    forall kind { CountUpToThree(Actions(max, d), id, kind); }
    hide Count;
  }

  ghost predicate AllBalanced(actions: seq<Action>) { forall id :: Balanced(actions, id) }

  /** A balanced trace stays balanced when a whole delivery follows. */
  lemma DeliveryKeepsBalance(max: int, trace: seq<Action>, d: Delivery)
    requires AllBalanced(trace)
    ensures AllBalanced(trace + Actions(max, d))
  {
    forall id ensures Balanced(trace + Actions(max, d), id) {
      BalancedDelivery(max, d, id);
      hide Count, Actions;
      assert Balanced(trace, id);
      forall kind
        ensures Count(trace + Actions(max, d), id, kind) == Count(trace, id, kind) + Count(Actions(max, d), id, kind)
      {
        CountConcat(trace, Actions(max, d), id, kind);
      }
    }
  }

  // ---- Deliveries in flight ----

  /** A delivery and how many of its actions are done. */
  datatype Flight = Flight(delivery: Delivery, done: nat)

  datatype Air = Air(db: Db, trace: seq<Action>, flights: seq<Flight>)

  /** A delivery begins, one in flight does its next action, or something else writes the database. */
  datatype Move = Begin(d: Delivery) | Act(k: nat) | Elsewhere(op: Op)

  /** The write an action comes to, unless the driver fails. */
  function OpOf(d: Delivery, a: Action): Option<Op> {
    match a
    case Sent(_, _, _) => None
    case IncrementTried(id) => if d.incrementFault then None else Some(Increment(id, d.trigger.owner))
    case ResetTried(id) => if d.resetFault then None else Some(Reset(id))
    case LogTried(payloadId, _) => if d.logFault then None else Some(AddLog(LogOf(d), payloadId))
  }

  /** Only deliveries write logs. */
  predicate CanMove(max: int, s: Air, m: Move) {
    match m
    case Begin(_) => true
    case Act(k) => k < |s.flights| && s.flights[k].done < |Actions(max, s.flights[k].delivery)|
    case Elsewhere(op) => !op.AddLog?
  }

  function NextAction(max: int, s: Air, k: nat): Action
    requires CanMove(max, s, Act(k))
  {
    Actions(max, s.flights[k].delivery)[s.flights[k].done]
  }

  function Moved(max: int, s: Air, m: Move): Air
    requires CanMove(max, s, m)
  {
    match m
    case Begin(d) => s.(flights := s.flights + [Flight(d, 0)])
    case Act(k) =>
      var f := s.flights[k];
      var a := NextAction(max, s, k);
      var db := match OpOf(f.delivery, a) case Some(op) => Apply(s.db, op, max).db case None => s.db;
      Air(db, s.trace + [a], s.flights[k := f.(done := f.done + 1)])
    case Elsewhere(op) => s.(db := Apply(s.db, op, max).db)
  }

  ghost predicate Flies(max: int, s: Air, moves: seq<Move>)
    decreases |moves|
  {
    moves == [] || (CanMove(max, s, moves[0]) && Flies(max, Moved(max, s, moves[0]), moves[1..]))
  }

  ghost function Fly(max: int, s: Air, moves: seq<Move>): Air
    requires Flies(max, s, moves)
    decreases |moves|
  {
    if moves == [] then s else Fly(max, Moved(max, s, moves[0]), moves[1..])
  }

  /** The actions a flight has done. */
  function Done(max: int, f: Flight): seq<Action> {
    var actions := Actions(max, f.delivery);
    if f.done <= |actions| then actions[..f.done] else actions
  }

  /** What the deliveries have done so far, added up delivery by delivery. */
  function Flown(max: int, flights: seq<Flight>, id: string, kind: Kind): nat {
    if flights == [] then 0
    else Flown(max, flights[..|flights| - 1], id, kind) + Count(Done(max, flights[|flights| - 1]), id, kind)
  }

  ghost predicate Landed(max: int, flights: seq<Flight>) {
    forall k :: 0 <= k < |flights| ==> flights[k].done == |Actions(max, flights[k].delivery)|
  }

  lemma DoneGrows(max: int, f: Flight, id: string, kind: Kind)
    requires f.done < |Actions(max, f.delivery)|
    ensures Count(Done(max, f.(done := f.done + 1)), id, kind)
            == Count(Done(max, f), id, kind) + if IsOf(Actions(max, f.delivery)[f.done], id, kind) then 1 else 0
  {
    hide Actions, IsOf;
    var actions := Actions(max, f.delivery);
    assert actions[..f.done + 1][..f.done] == actions[..f.done];
  }

  lemma {:induction false} FlownAct(max: int, flights: seq<Flight>, k: nat, id: string, kind: Kind)
    requires k < |flights| && flights[k].done < |Actions(max, flights[k].delivery)|
    ensures var f := flights[k]; var a := Actions(max, f.delivery)[f.done];
            Flown(max, flights[k := f.(done := f.done + 1)], id, kind)
              == Flown(max, flights, id, kind) + if IsOf(a, id, kind) then 1 else 0
  {
    hide Actions, IsOf, Done, Count;
    var n := |flights| - 1;
    var f := flights[k];
    var flights' := flights[k := f.(done := f.done + 1)];
    if k == n {
      assert flights'[..n] == flights[..n];
      DoneGrows(max, f, id, kind);
    } else {
      assert flights'[..n] == flights[..n][k := f.(done := f.done + 1)];
      FlownAct(max, flights[..n], k, id, kind);
    }
  }

  lemma FlownBegin(max: int, flights: seq<Flight>, d: Delivery, id: string, kind: Kind)
    ensures Flown(max, flights + [Flight(d, 0)], id, kind) == Flown(max, flights, id, kind)
  {
    assert (flights + [Flight(d, 0)])[..|flights|] == flights;
    assert Done(max, Flight(d, 0)) == [];
  }

  /** The trace holds what the deliveries have done, in whatever order they took turns. */
  ghost predicate Accounted(max: int, s: Air) {
    forall id, kind :: Count(s.trace, id, kind) == Flown(max, s.flights, id, kind)
  }

  lemma AccountedMove(max: int, s: Air, m: Move)
    requires Accounted(max, s) && CanMove(max, s, m)
    ensures Accounted(max, Moved(max, s, m))
  {
    var s' := Moved(max, s, m);
    hide Apply, Actions, IsOf, Done;
    forall id, kind ensures Count(s'.trace, id, kind) == Flown(max, s'.flights, id, kind) {
      assert Count(s.trace, id, kind) == Flown(max, s.flights, id, kind);
      if m.Begin? { FlownBegin(max, s.flights, m.d, id, kind); }
      if m.Act? {
        FlownAct(max, s.flights, m.k, id, kind);
        assert s'.trace[..|s'.trace| - 1] == s.trace;
      }
      hide Flown;
    }
  }

  /** Landed deliveries balance, one by one and so together. */
  lemma {:induction false} LandedBalance(max: int, flights: seq<Flight>, id: string)
    requires Landed(max, flights)
    ensures Flown(max, flights, id, Increments) == Flown(max, flights, id, EndpointFailures)
    ensures Flown(max, flights, id, Resets) == Flown(max, flights, id, Deliveries)
    ensures Flown(max, flights, id, Logs) == Flown(max, flights, id, Deliveries)
    ensures Flown(max, flights, id, Sends) == Flown(max, flights, id, Deliveries) + Flown(max, flights, id, EndpointFailures)
                                              + Flown(max, flights, id, OtherErrors)
  {
    if flights != [] {
      var n := |flights| - 1;
      LandedBalance(max, flights[..n], id);
      assert Done(max, flights[n]) == Actions(max, flights[n].delivery);
      BalancedDelivery(max, flights[n].delivery, id);
      hide Count, Actions, Done;
    }
  }

  /** Follow-ups do not outnumber the sends they follow, and sends are of the three kinds. */
  ghost predicate Bounded(actions: seq<Action>, id: string) {
    && Count(actions, id, Increments) <= Count(actions, id, EndpointFailures)
    && Count(actions, id, Logs) <= Count(actions, id, Resets) <= Count(actions, id, Deliveries)
    && Count(actions, id, Sends)
       == Count(actions, id, Deliveries) + Count(actions, id, EndpointFailures) + Count(actions, id, OtherErrors)
  }

  lemma PrefixBounded(max: int, f: Flight, id: string)
    requires f.done <= |Actions(max, f.delivery)|
    ensures Bounded(Done(max, f), id)
  {
    forall kind { CountUpToThree(Done(max, f), id, kind); }
    hide Count;
  }

  lemma {:induction false} FlownBounded(max: int, flights: seq<Flight>, id: string)
    requires forall k :: 0 <= k < |flights| ==> flights[k].done <= |Actions(max, flights[k].delivery)|
    ensures Flown(max, flights, id, Increments) <= Flown(max, flights, id, EndpointFailures)
    ensures Flown(max, flights, id, Logs) <= Flown(max, flights, id, Resets) <= Flown(max, flights, id, Deliveries)
    ensures Flown(max, flights, id, Sends) == Flown(max, flights, id, Deliveries) + Flown(max, flights, id, EndpointFailures)
                                              + Flown(max, flights, id, OtherErrors)
  {
    if flights != [] {
      var n := |flights| - 1;
      FlownBounded(max, flights[..n], id);
      PrefixBounded(max, flights[n], id);
      hide Count, Actions, Done;
    }
  }

  /** The tables' keys, the accounts, and no delivery past its end. */
  ghost predicate AirOk(max: int, s: Air) {
    && KeysOk(s.db) && Keyed(s.db) && Accounted(max, s)
    && (forall k :: 0 <= k < |s.flights| ==> s.flights[k].done <= |Actions(max, s.flights[k].delivery)|)
  }

  lemma OpKeepsKeys(db: Db, op: Op, max: int)
    requires KeysOk(db) && Keyed(db)
    ensures KeysOk(Apply(db, op, max).db) && Keyed(Apply(db, op, max).db)
  {
    KeysPreserved(db, op, max);
    hide Apply, KeysOk;
    forall id | id in Apply(db, op, max).db.triggers ensures Apply(db, op, max).db.triggers[id].id == id {
      RowsAfter(db, op, max, id);
    }
  }

  lemma AirMove(max: int, s: Air, m: Move)
    requires AirOk(max, s) && CanMove(max, s, m)
    ensures AirOk(max, Moved(max, s, m))
  {
    AccountedMove(max, s, m);
    hide Accounted, KeysOk, Keyed, Apply, Actions;
    if m.Elsewhere? { OpKeepsKeys(s.db, m.op, max); }
    if m.Act? && OpOf(s.flights[m.k].delivery, NextAction(max, s, m.k)).Some? {
      OpKeepsKeys(s.db, OpOf(s.flights[m.k].delivery, NextAction(max, s, m.k)).value, max);
    }
  }

  lemma {:induction false} AirRun(max: int, s: Air, moves: seq<Move>)
    requires AirOk(max, s) && Flies(max, s, moves)
    ensures AirOk(max, Fly(max, s, moves))
    decreases |moves|
  {
    if moves != [] {
      AirMove(max, s, moves[0]);
      AirRun(max, Moved(max, s, moves[0]), moves[1..]);
    }
  }

  /**
   However deliveries interleave with each other and with every other write,
   trigger by trigger: at any moment follow-ups do not run ahead of their
   sends, and once all have landed every endpoint failure tried exactly one
   increment, every delivered send one reset and one log, and sends that ended
   otherwise neither.
  */
  lemma EveryRunIsAccounted(max: int, db: Db, moves: seq<Move>, id: string)
    requires KeysOk(db) && Keyed(db) && Flies(max, Air(db, [], []), moves)
    ensures var end := Fly(max, Air(db, [], []), moves);
            Bounded(end.trace, id) && (Landed(max, end.flights) ==> Balanced(end.trace, id))
  {
    AirRun(max, Air(db, [], []), moves);
    var end := Fly(max, Air(db, [], []), moves);
    FlownBounded(max, end.flights, id);
    if Landed(max, end.flights) { LandedBalance(max, end.flights, id); }
    hide Count, Flown, Fly, Flies, Actions;
    forall kind ensures Count(end.trace, id, kind) == Flown(max, end.flights, id, kind) {
    }
  }

  // ---- Logs ----

  /** The log is that of a flight whose send was delivered and whose log was tried. */
  predicate LoggedBy(max: int, f: Flight, log: TriggerLog) {
    && ShouldAttemptWebhook(max, f.delivery.trigger) && f.delivery.sending == Delivered && f.done == 3
    && log == LogOf(f.delivery)
  }

  /** Some flight wrote this log. */
  ghost predicate HasFlight(max: int, flights: seq<Flight>, log: TriggerLog) {
    exists k :: 0 <= k < |flights| && LoggedBy(max, flights[k], log)
  }

  ghost predicate LogsOk(max: int, before: seq<TriggerLog>, s: Air) {
    && before <= s.db.logs
    && forall i :: |before| <= i < |s.db.logs| ==> HasFlight(max, s.flights, s.db.logs[i])
  }

  /** Only a log write changes the logs, and it appends its own. */
  lemma LogsAfter(db: Db, op: Op, max: int)
    ensures var logs := Apply(db, op, max).db.logs;
            logs == db.logs || (op.AddLog? && logs == db.logs + [if op.log.id == "" then op.log.(id := op.freshId) else op.log])
  {
  }

  lemma FlightsStay(max: int, s: Air, m: Move, log: TriggerLog)
    requires CanMove(max, s, m) && HasFlight(max, s.flights, log)
    ensures HasFlight(max, Moved(max, s, m).flights, log)
  {
    var k :| 0 <= k < |s.flights| && LoggedBy(max, s.flights[k], log);
    hide Apply;
    assert LoggedBy(max, Moved(max, s, m).flights[k], log);
  }

  /** The new log of a move, if there is one, is its flight's. */
  lemma NewLog(max: int, s: Air, m: Move)
    requires CanMove(max, s, m)
    ensures var s' := Moved(max, s, m);
            s'.db.logs == s.db.logs || (exists log :: s'.db.logs == s.db.logs + [log] && HasFlight(max, s'.flights, log))
  {
    var s' := Moved(max, s, m);
    match m
    case Begin(_) =>
    case Elsewhere(op) => LogsAfter(s.db, op, max);
    case Act(k) =>
      var d, a := s.flights[k].delivery, NextAction(max, s, k);
      if OpOf(d, a).Some? { LogsAfter(s.db, OpOf(d, a).value, max); }
      hide Apply;
      if s'.db.logs != s.db.logs {
        assert s'.db.logs == s.db.logs + [LogOf(d)];
        assert LoggedBy(max, s'.flights[k], LogOf(d));
      }
  }

  lemma LogsMove(max: int, before: seq<TriggerLog>, s: Air, m: Move)
    requires LogsOk(max, before, s) && CanMove(max, s, m)
    ensures LogsOk(max, before, Moved(max, s, m))
  {
    NewLog(max, s, m);
    var s' := Moved(max, s, m);
    hide HasFlight, Moved, CanMove;
    forall i | |before| <= i < |s'.db.logs| ensures HasFlight(max, s'.flights, s'.db.logs[i]) {
      if i < |s.db.logs| { FlightsStay(max, s, m, s.db.logs[i]); }
    }
  }

  lemma {:induction false} LogsRun(max: int, before: seq<TriggerLog>, s: Air, moves: seq<Move>)
    requires LogsOk(max, before, s) && Flies(max, s, moves)
    ensures LogsOk(max, before, Fly(max, s, moves))
    decreases |moves|
  {
    if moves != [] {
      LogsMove(max, before, s, moves[0]);
      LogsRun(max, before, Moved(max, s, moves[0]), moves[1..]);
    }
  }

  /** However deliveries interleave, every log written is that of a delivered send. */
  lemma LogsAreDeliveredSends(max: int, db: Db, moves: seq<Move>, i: nat)
    requires Flies(max, Air(db, [], []), moves) && |db.logs| <= i < |Fly(max, Air(db, [], []), moves).db.logs|
    ensures var end := Fly(max, Air(db, [], []), moves);
            HasFlight(max, end.flights, end.db.logs[i])
  {
    LogsRun(max, db.logs, Air(db, [], []), moves);
  }

  /** And different logs are of different sends: log ids are keys, and a log carries its payload's. */
  lemma LogsMapInjectively(max: int, db: Db, moves: seq<Move>, i: nat, j: nat, k: nat, l: nat)
    requires KeysOk(db) && Keyed(db) && Flies(max, Air(db, [], []), moves)
    requires var end := Fly(max, Air(db, [], []), moves);
             && |db.logs| <= i < j < |end.db.logs| && k < |end.flights| && l < |end.flights|
             && LoggedBy(max, end.flights[k], end.db.logs[i]) && LoggedBy(max, end.flights[l], end.db.logs[j])
    ensures var end := Fly(max, Air(db, [], []), moves);
            k != l && end.flights[k].delivery.payload.id != end.flights[l].delivery.payload.id
  {
    AirRun(max, Air(db, [], []), moves);
  }

  // ---- One delivery on its own ----

  function After(max: int, db: Db, d: Delivery, a: Action): Db {
    match OpOf(d, a) case Some(op) => Apply(db, op, max).db case None => db
  }

  function AfterAll(max: int, db: Db, d: Delivery, actions: seq<Action>): Db
    decreases |actions|
  {
    if actions == [] then db else AfterAll(max, After(max, db, d, actions[0]), d, actions[1..])
  }

  /** The last flight does the rest of its actions without interruption. */
  lemma {:induction false} Finishing(max: int, s: Air) returns (moves: seq<Move>)
    requires s.flights != [] && s.flights[|s.flights| - 1].done <= |Actions(max, s.flights[|s.flights| - 1].delivery)|
    ensures Flies(max, s, moves)
    ensures var f := s.flights[|s.flights| - 1]; var actions := Actions(max, f.delivery);
            Fly(max, s, moves) == Air(AfterAll(max, s.db, f.delivery, actions[f.done..]), s.trace + actions[f.done..],
                                      s.flights[|s.flights| - 1 := f.(done := |actions|)])
    decreases |Actions(max, s.flights[|s.flights| - 1].delivery)| - s.flights[|s.flights| - 1].done
  {
    var k := |s.flights| - 1;
    var f := s.flights[k];
    var actions := Actions(max, f.delivery);
    hide Apply, Actions;
    moves := [];
    if f.done < |actions| {
      var s' := Moved(max, s, Act(k));
      var rest := Finishing(max, s');
      moves := [Act(k)] + rest;
      assert moves[1..] == rest;
      assert actions[f.done..][1..] == actions[f.done + 1..];
      assert s.trace + actions[f.done..] == s'.trace + actions[f.done + 1..];
    } else {
      assert s.flights[k := f.(done := |actions|)] == s.flights;
    }
  }

  lemma WritesOfActions(max: int, db: Db, d: Delivery)
    ensures AfterAll(max, db, d, Actions(max, d)) == ApplyAll(db, Writes(max, d), max)
  {
    var id := d.trigger.id;
    TwoWrites(db, Reset(id), AddLog(LogOf(d), d.payload.id), max);
    TwoWrites(db, AddLog(LogOf(d), d.payload.id), Reset(id), max);
    TwoWrites(db, Increment(id, d.trigger.owner), Reset(id), max);
    hide Apply, ApplyAll;
    if ShouldAttemptWebhook(max, d.trigger) {
      var sent, reset, log := Sent(d.payload.id, id, d.sending), ResetTried(id), LogTried(d.payload.id, id);
      assert [sent][1..] == [] && [log][1..] == [] && [IncrementTried(id)][1..] == [];
      match d.sending
      case Delivered =>
        assert [sent, reset, log][1..] == [reset, log] && [reset, log][1..] == [log];
        var cleared := After(max, db, d, reset);
        assert AfterAll(max, db, d, [reset, log]) == AfterAll(max, cleared, d, [log]) == After(max, cleared, d, log);
        var clears := if d.resetFault then [] else [Reset(id)];
        assert Writes(max, d) == clears + (if d.logFault then [] else [AddLog(LogOf(d), d.payload.id)]);
        assert clears + [] == clears && [] + [AddLog(LogOf(d), d.payload.id)] == [AddLog(LogOf(d), d.payload.id)]
               && [Reset(id)] + [AddLog(LogOf(d), d.payload.id)] == [Reset(id), AddLog(LogOf(d), d.payload.id)];
      case EndpointFailure =>
        assert [sent, IncrementTried(id)][1..] == [IncrementTried(id)];
        assert AfterAll(max, db, d, [sent, IncrementTried(id)]) == AfterAll(max, db, d, [IncrementTried(id)])
               == After(max, db, d, IncrementTried(id));
      case OtherError =>
    }
  }

  /** A delivery that nobody interrupts leaves its actions in order and its writes one after the other. */
  lemma AloneInOrder(max: int, s: Air, d: Delivery) returns (moves: seq<Move>)
    ensures Flies(max, s, moves)
    ensures Fly(max, s, moves) == Air(ApplyAll(s.db, Writes(max, d), max), s.trace + Actions(max, d),
                                      s.flights + [Flight(d, |Actions(max, d)|)])
  {
    WritesOfActions(max, s.db, d);
    hide Apply, ApplyAll, Actions, Writes, AfterAll;
    var begun := Moved(max, s, Begin(d));
    var rest := Finishing(max, begun);
    moves := [Begin(d)] + rest;
    assert moves[1..] == rest;
    assert Actions(max, d)[0..] == Actions(max, d);
    assert begun.flights[|s.flights| := Flight(d, |Actions(max, d)|)] == s.flights + [Flight(d, |Actions(max, d)|)];
  }

  // ---- What deliveries change ----

  /** A row up to its failure count and status. */
  function Settings(t: Trigger): Trigger { t.(failures := 0, status := Enabled) }

  /**
   From one point of a trace on: logs are only appended, each for a send
   delivered since; subscriptions are only removed; and triggers change in
   nothing but failure count and status.
  */
  ghost predicate Advanced(before: Db, from: nat, after: Db, trace: seq<Action>) {
    && before.logs <= after.logs
    && (forall i :: |before.logs| <= i < |after.logs| ==> SentSince(trace, from, after.logs[i]))
    && after.subs <= before.subs
    && after.triggers.Keys == before.triggers.Keys
    && (forall id :: id in before.triggers ==> Settings(after.triggers[id]) == Settings(before.triggers[id]))
  }

  predicate SentSince(trace: seq<Action>, from: nat, log: TriggerLog) {
    exists j :: from <= j < |trace| && trace[j] == Sent(log.id, log.triggerId, Delivered)
  }

  lemma AdvancedOn(before: Db, from: nat, mid: Db, trace: seq<Action>, after: Db, trace': seq<Action>)
    requires Advanced(before, from, mid, trace) && Advanced(mid, |trace|, after, trace')
    requires from <= |trace| && trace <= trace'
    ensures Advanced(before, from, after, trace')
  {
    forall i | |before.logs| <= i < |after.logs| ensures SentSince(trace', from, after.logs[i]) {
      if i < |mid.logs| {
        assert after.logs[i] == mid.logs[i];
        var j :| from <= j < |trace| && trace[j] == Sent(mid.logs[i].id, mid.logs[i].triggerId, Delivered);
        assert trace'[j] == trace[j];
      } else {
        assert SentSince(trace', |trace|, after.logs[i]);
      }
    }
  }

  /** A delivery appends at most the log of its own payload, and only if it was delivered. */
  lemma WritesLog(db: Db, max: int, d: Delivery)
    ensures var logs := ApplyAll(db, Writes(max, d), max).logs;
            || logs == db.logs
            || (ShouldAttemptWebhook(max, d.trigger) && d.sending == Delivered && logs == db.logs + [LogOf(d)])
  {
    var ops := Writes(max, d);
    if ops != [] {
      var first, last := ops[0], ops[|ops| - 1];
      assert ops == if |ops| == 1 then [first] else [first, last];
      TwoWrites(db, first, last, max);
      LogsAfter(db, first, max);
      LogsAfter(Apply(db, first, max).db, last, max);
      hide Apply, ApplyAll;
    }
  }

  /** The writes of a delivery change only the count and status of a row. */
  lemma OutcomeKeepsSettings(db: Db, op: Op, max: int)
    requires op.Increment? || op.Reset? || op.AddLog?
    requires forall id :: id in db.triggers ==> db.triggers[id].id == id
    ensures var after := Apply(db, op, max).db;
            && after.subs == db.subs && after.triggers.Keys == db.triggers.Keys
            && (forall id :: id in db.triggers ==> Settings(after.triggers[id]) == Settings(db.triggers[id]))
            && (forall id :: id in after.triggers ==> after.triggers[id].id == id)
  {
  }

  lemma DeliveryKeepsSettings(max: int, db: Db, d: Delivery)
    requires Keyed(db)
    ensures var after := ApplyAll(db, Writes(max, d), max);
            && after.subs == db.subs && after.triggers.Keys == db.triggers.Keys
            && forall id :: id in db.triggers ==> Settings(after.triggers[id]) == Settings(db.triggers[id])
  {
    var ops := Writes(max, d);
    if ops != [] {
      OutcomeKeepsSettings(db, ops[0], max);
      TwoWrites(db, ops[0], ops[|ops| - 1], max);
      if |ops| == 1 {
        assert ops == [ops[0]];
      } else {
        assert ops == [ops[0], ops[1]];
        OutcomeKeepsSettings(Apply(db, ops[0], max).db, ops[1], max);
      }
      hide Apply, ApplyAll, Settings, Writes;
    }
  }

  lemma DeliveryKeepsSubs(max: int, db: Db, d: Delivery)
    ensures ApplyAll(db, Writes(max, d), max).subs == db.subs
  {
    var ops := Writes(max, d);
    if ops != [] {
      TwoWrites(db, ops[0], ops[|ops| - 1], max);
      assert ops == if |ops| == 1 then [ops[0]] else [ops[0], ops[1]];
      hide ApplyAll, Writes;
    }
  }

  lemma DeliveryAdvances(max: int, db: Db, trace: seq<Action>, d: Delivery)
    requires Keyed(db)
    ensures Advanced(db, |trace|, ApplyAll(db, Writes(max, d), max), trace + Actions(max, d))
  {
    DeliveryKeepsSettings(max, db, d);
    WritesLog(db, max, d);
    assert ShouldAttemptWebhook(max, d.trigger) ==> (trace + Actions(max, d))[|trace|] == Sent(d.payload.id, d.trigger.id, d.sending);
    hide Apply, ApplyAll, Settings, Writes;
  }

  /** A listener with the store's threshold attempts every webhook of every map the cache ever publishes. */
  lemma CachedWebhooksAreAttempted(env: Env, s: RefreshProtocol.Service, steps: seq<RefreshProtocol.Step>, asset: string,
                                   service: string, metricName: string, wh: Webhook)
    requires RefreshProtocol.BreakerOk(env, s) && RefreshProtocol.Runs(env, s, steps)
    requires wh in Lookup(RefreshProtocol.Run(env, s, steps).published, asset, service, metricName)
    ensures ShouldAttemptWebhook(env.maxFailures, wh.trigger)
  {
    RefreshProtocol.PublishedAreAttemptable(env, s, steps);
    var index := RefreshProtocol.Run(env, s, steps).published;
    assert RefreshProtocol.GoodList(env, index[asset][WebhookKey(service, metricName)]);
  }
}
