/**
 The semaphore-bounded dispatcher (processMessage,
 internal/controllers/metriclistener/metric_listener.go). A loop takes
 messages off a channel and starts a processor for each once a slot is free;
 on cancellation, or when the channel is closed and empty, it waits for every
 slot and returns. Messages are numbered in the order they are sent.
*/
module Dispatcher {
  /** Where the loop is; `clean` tells the nil return from the context's error. */
  datatype Loop = Selecting | Got(msg: nat) | Acquiring(msg: nat) | Draining(clean: bool) | Returned(clean: bool)

  /**
   A started message moves through `processing`, `processed` (its processor
   returned, the message not yet acked) and `releasing` (acked, slot not yet
   given back). `acked` counts the acks of each message.
  */
  datatype State = State(
    max: nat,
    sent: nat,
    received: nat,
    closed: bool,
    cancelled: bool,
    loop: Loop,
    started: set<nat>,
    dropped: set<nat>,
    processing: set<nat>,
    processed: set<nat>,
    releasing: set<nat>,
    acked: multiset<nat>)

  function Start(max: nat): State {
    State(max, 0, 0, false, false, Selecting, {}, {}, {}, {}, {}, multiset{})
  }

  /** Send, CloseChannel and Cancel are the outside's; the other steps are the dispatcher's and its processors'. */
  datatype Step =
    | Send
    | CloseChannel
    | Cancel
    | SeeCancel
    | Receive
    | SeeClosed
    | CheckContext
    | Acquire
    | AcquireFails
    | Process(msg: nat, ok: bool)
    | Ack(msg: nat)
    | Release(msg: nat)
    | Drained

  predicate Outside(step: Step) { step.Send? || step.CloseChannel? || step.Cancel? }

  function InFlight(s: State): nat { |s.processing| + |s.processed| + |s.releasing| }

  predicate Enabled(s: State, step: Step) {
    match step
    case Send => !s.closed
    case CloseChannel => !s.closed
    case Cancel => true
    case SeeCancel => s.loop.Selecting? && s.cancelled
    case Receive => s.loop.Selecting? && s.received < s.sent
    case SeeClosed => s.loop.Selecting? && s.closed && s.received == s.sent
    case CheckContext => s.loop.Got?
    case Acquire => s.loop.Acquiring? && InFlight(s) < s.max
    case AcquireFails => s.loop.Acquiring? && s.cancelled
    case Process(m, _) => m in s.processing
    case Ack(m) => m in s.processed
    case Release(m) => m in s.releasing
    case Drained => s.loop.Draining? && InFlight(s) == 0
  }

  function Next(s: State, step: Step): State
    requires Enabled(s, step)
  {
    match step
    case Send => s.(sent := s.sent + 1)
    case CloseChannel => s.(closed := true)
    case Cancel => s.(cancelled := true)
    case SeeCancel => s.(loop := Draining(false))
    case Receive => s.(loop := Got(s.received), received := s.received + 1)
    case SeeClosed => s.(loop := Draining(true))
    case CheckContext =>
      if s.cancelled then s.(loop := Draining(false), dropped := s.dropped + {s.loop.msg})
      else s.(loop := Acquiring(s.loop.msg))
    case Acquire =>
      s.(loop := Selecting, started := s.started + {s.loop.msg}, processing := s.processing + {s.loop.msg})
    case AcquireFails => s.(loop := Draining(false), dropped := s.dropped + {s.loop.msg})
    case Process(m, _) => s.(processing := s.processing - {m}, processed := s.processed + {m})
    case Ack(m) =>
      s.(processed := s.processed - {m}, releasing := s.releasing + {m}, acked := s.acked[m := s.acked[m] + 1])
    case Release(m) => s.(releasing := s.releasing - {m})
    case Drained => s.(loop := Returned(s.loop.clean))
  }

  ghost predicate Runs(s: State, steps: seq<Step>)
    decreases |steps|
  {
    steps == [] || (Enabled(s, steps[0]) && Runs(Next(s, steps[0]), steps[1..]))
  }

  ghost function Run(s: State, steps: seq<Step>): State
    requires Runs(s, steps)
    decreases |steps|
  {
    if steps == [] then s else Run(Next(s, steps[0]), steps[1..])
  }

  // ---- The invariant ----

  predicate InHand(s: State, m: nat) { (s.loop.Got? || s.loop.Acquiring?) && s.loop.msg == m }

  predicate OneOf(a: bool, b: bool, c: bool) { (a || b || c) && !(a && b) && !(a && c) && !(b && c) }

  /** A received message is started, dropped or in hand; a started one is in one phase, and acked once or not yet. */
  predicate Accounted(s: State, m: nat) {
    && (if m < s.received then OneOf(m in s.started, m in s.dropped, InHand(s, m))
        else m !in s.started && m !in s.dropped && !InHand(s, m))
    && (m in s.processing + s.processed + s.releasing ==> m in s.started)
    && !(m in s.processing && m in s.processed) && !(m in s.processing && m in s.releasing)
    && !(m in s.processed && m in s.releasing)
    && s.acked[m] == (if m in s.started && m !in s.processing && m !in s.processed then 1 else 0)
  }

  ghost predicate DispatchOk(s: State) {
    && (forall m :: Accounted(s, m))
    && InFlight(s) <= s.max
    && s.received <= s.sent
    && s.received == |s.started| + |s.dropped| + (if s.loop.Got? || s.loop.Acquiring? then 1 else 0)
    && |s.dropped| <= 1
    && (s.dropped != {} ==> s.loop == Draining(false) || s.loop == Returned(false))
    && (s.loop == Draining(true) || s.loop == Returned(true) ==> s.closed && s.received == s.sent)
    && (s.loop == Draining(false) || s.loop == Returned(false) ==> s.cancelled)
    && (s.loop.Returned? ==> InFlight(s) == 0)
  }

  lemma StartOk(max: nat)
    ensures DispatchOk(Start(max))
  {
  }

  lemma AccountedStep(s: State, step: Step, m: nat)
    requires (forall k :: Accounted(s, k)) && Enabled(s, step)
    requires s.dropped != {} ==> s.loop == Draining(false) || s.loop == Returned(false)
    ensures Accounted(Next(s, step), m)
  {
    assert Accounted(s, m);
    if step.Process? || step.Ack? || step.Release? {
      assert Accounted(s, step.msg);
      AccountedPhase(s, step, m);
    } else {
      AccountedLoop(s, step, m);
    }
    hide Next, Accounted;
  }

  /** A processor moves one message on. */
  lemma AccountedPhase(s: State, step: Step, m: nat)
    requires Accounted(s, m) && Enabled(s, step) && (step.Process? || step.Ack? || step.Release?) && Accounted(s, step.msg)
    ensures Accounted(Next(s, step), m)
  {
    hide OneOf;
  }

  /** The loop receives, starts or drops one message, or none. */
  lemma AccountedLoop(s: State, step: Step, m: nat)
    requires Accounted(s, m) && Enabled(s, step) && !step.Process? && !step.Ack? && !step.Release?
    requires s.dropped != {} ==> s.loop == Draining(false) || s.loop == Returned(false)
    ensures Accounted(Next(s, step), m)
  {
    if step.Receive? || step.CheckContext? || step.Acquire? || step.AcquireFails? {
      AccountedHand(s, step, m);
    } else {
      hide OneOf;
      assert InHand(Next(s, step), m) <==> InHand(s, m);
    }
  }

  /** The message in hand is taken, started or dropped. */
  lemma AccountedHand(s: State, step: Step, m: nat)
    requires Accounted(s, m) && Enabled(s, step)
    requires step.Receive? || step.CheckContext? || step.Acquire? || step.AcquireFails?
    ensures Accounted(Next(s, step), m)
  {
  }

  lemma NextKeeps(s: State, step: Step)
    requires DispatchOk(s) && Enabled(s, step)
    ensures DispatchOk(Next(s, step))
  {
    var s' := Next(s, step);
    forall m ensures Accounted(s', m) { AccountedStep(s, step, m); }
    if step.Process? || step.Ack? || step.Release? { assert Accounted(s, step.msg); }
    if s.loop.Got? || s.loop.Acquiring? { assert Accounted(s, s.loop.msg); }
  }

  /** Every schedule keeps the bound and the accounts. */
  lemma {:induction false} EveryRunKeeps(s: State, steps: seq<Step>)
    requires DispatchOk(s) && Runs(s, steps)
    ensures DispatchOk(Run(s, steps)) && Run(s, steps).max == s.max
    decreases |steps|
  {
    if steps != [] {
      NextKeeps(s, steps[0]);
      EveryRunKeeps(Next(s, steps[0]), steps[1..]);
    }
  }

  /** At every moment of every run no more than `max` processors run. */
  lemma AtMostMaxRun(max: nat, steps: seq<Step>)
    requires Runs(Start(max), steps)
    ensures |Run(Start(max), steps).processing| <= max
  {
    StartOk(max);
    EveryRunKeeps(Start(max), steps);
  }

  /**
   On return no processor is left; every started message was acked exactly
   once, whatever its processor returned; at most one received message was
   dropped, and only under cancellation; without cancellation the result is
   nil and every message ever sent was processed.
  */
  lemma OnReturn(max: nat, steps: seq<Step>)
    requires Runs(Start(max), steps) && Run(Start(max), steps).loop.Returned?
    ensures var end := Run(Start(max), steps);
            && end.processing == {} && end.processed == {} && end.releasing == {}
            && (forall m :: end.acked[m] == if m in end.started then 1 else 0)
            && end.received == |end.started| + |end.dropped| && |end.dropped| <= 1
            && (end.loop.clean ==> end.dropped == {} && end.closed && forall m: nat :: m in end.started <==> m < end.sent)
            && (!end.cancelled ==> end.loop.clean)
  {
    StartOk(max);
    EveryRunKeeps(Start(max), steps);
    var end := Run(Start(max), steps);
    forall m ensures end.acked[m] == if m in end.started then 1 else 0 { assert Accounted(end, m); }
    if end.loop.clean {
      forall m: nat ensures m in end.started <==> m < end.sent { assert Accounted(end, m); }
    }
  }

  // ---- Progress ----

  function LoopWeight(l: Loop): nat {
    match l case Selecting => 2 case Got(_) => 7 case Acquiring(_) => 6 case Draining(_) => 1 case Returned(_) => 0
  }

  /** Steps left before the dispatcher waits for the outside or returns. */
  function Remaining(s: State): int {
    6 * (s.sent - s.received) + LoopWeight(s.loop) + 3 * |s.processing| + 2 * |s.processed| + |s.releasing|
  }

  /** Every step of the dispatcher or a processor uses up one of the remaining steps. */
  lemma StepsRunOut(s: State, step: Step)
    requires DispatchOk(s) && Enabled(s, step) && !Outside(step)
    ensures 0 <= Remaining(Next(s, step)) < Remaining(s)
  {
    assert s.received <= s.sent;
    hide DispatchOk, Accounted, InHand, OneOf;
  }

  /** It stops only on return, or while the channel is open, empty and not cancelled. */
  lemma Progress(s: State) returns (step: Step)
    requires DispatchOk(s) && s.max >= 1 && !s.loop.Returned?
    requires s.cancelled || s.closed || s.received < s.sent || !s.loop.Selecting?
    ensures Enabled(s, step) && !Outside(step)
  {
    if m :| m in s.processing {
      step := Process(m, true);
    } else if m :| m in s.processed {
      step := Ack(m);
    } else if m :| m in s.releasing {
      step := Release(m);
    } else {
      step := match s.loop
        case Selecting => if s.cancelled then SeeCancel else if s.received < s.sent then Receive else SeeClosed
        case Got(_) => CheckContext
        case Acquiring(_) => Acquire
        case Draining(_) => Drained
        case Returned(_) => Drained;
    }
  }

  // ---- The fan-out of one message ----

  /** The webhooks of one signal or event: all there from the start, nothing more to come. */
  function FanOut(limit: nat, webhooks: nat): State {
    Start(limit).(sent := webhooks, closed := true)
  }

  ghost predicate NeverCancelled(steps: seq<Step>) { forall i :: 0 <= i < |steps| ==> !steps[i].Cancel? }

  lemma {:induction false} UncancelledRun(s: State, steps: seq<Step>)
    requires Runs(s, steps) && NeverCancelled(steps) && !s.cancelled && s.closed
    ensures !Run(s, steps).cancelled && Run(s, steps).sent == s.sent
    decreases |steps|
  {
    if steps != [] {
      assert !steps[0].Cancel?;
      UncancelledRun(Next(s, steps[0]), steps[1..]);
    }
  }

  /**
   The group that evaluates one signal's webhooks is the same machine with a
   closed queue: its members never return an error, so nothing cancels it, and
   when the wait ends every webhook was evaluated exactly once, whatever any
   of the evaluations returned.
  */
  lemma FanOutEvaluatesEachOnce(limit: nat, webhooks: nat, steps: seq<Step>)
    requires Runs(FanOut(limit, webhooks), steps) && NeverCancelled(steps)
    requires Run(FanOut(limit, webhooks), steps).loop.Returned?
    ensures var end := Run(FanOut(limit, webhooks), steps);
            && (forall m: nat :: end.acked[m] == if m < webhooks then 1 else 0)
            && (forall m: nat :: m in end.started <==> m < webhooks)
  {
    var s := FanOut(limit, webhooks);
    EveryRunKeeps(s, steps);
    UncancelledRun(s, steps);
    var end := Run(s, steps);
    forall m: nat
      ensures end.acked[m] == (if m < webhooks then 1 else 0)
      ensures m in end.started <==> m < webhooks
    {
      assert Accounted(end, m);
    }
  }
}
