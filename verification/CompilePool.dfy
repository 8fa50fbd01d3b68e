/**
 The worker pool that fetches and compiles triggers
 (compileTriggersParallel, internal/services/webhookcache/webhook_cache.go).
 Workers draw ids from a closed channel and send what compiled to a result
 channel; a closer waits for them and a collector drains the results. Any
 process that can move may move next.
*/
module CompilePool {
  import opened Wrappers

  const DEFAULT_WORKERS := 2

  datatype Worker<W> = Idle | Fetching(id: string) | Holding(id: string, item: W) | Exited

  /** `answers` records what each fetch and compile returned, None for an error. */
  datatype Pool<W> = Pool(
    ids: seq<string>,
    workers: seq<Worker<W>>,
    results: seq<(string, W)>,
    capacity: nat,
    closed: bool,
    out: map<string, W>,
    returned: bool,
    answers: map<string, Option<W>>)

  /** `Work` is the next action of a worker; the answer matters when a fetch is under way. */
  datatype Step<W> = Work(w: nat, answer: Option<W>) | Close | Receive | Return

  function Start<W>(ids: seq<string>, workers: nat): Pool<W> {
    Pool(ids, seq(workers, _ => Idle), [], |ids|, false, map[], false, map[])
  }

  /** A worker holding a result waits while the channel is full. */
  predicate Enabled<W>(s: Pool<W>, step: Step<W>) {
    match step
    case Work(w, _) =>
      w < |s.workers| && !s.workers[w].Exited? && (s.workers[w].Holding? ==> |s.results| < s.capacity)
    case Close => !s.closed && forall w :: 0 <= w < |s.workers| ==> s.workers[w].Exited?
    case Receive => s.results != []
    case Return => s.closed && s.results == [] && !s.returned
  }

  function Next<W>(s: Pool<W>, step: Step<W>): Pool<W>
    requires Enabled(s, step)
  {
    match step
    case Work(w, answer) =>
      (match s.workers[w]
       case Idle =>
         if s.ids == [] then s.(workers := s.workers[w := Exited])
         else s.(ids := s.ids[1..], workers := s.workers[w := Fetching(s.ids[0])])
       case Fetching(id) =>
         var next := match answer case Some(item) => Holding(id, item) case None => Idle;
         s.(workers := s.workers[w := next], answers := s.answers[id := answer])
       case Holding(id, item) =>
         s.(workers := s.workers[w := Idle], results := s.results + [(id, item)])
       case Exited => s)
    case Close => s.(closed := true)
    case Receive => s.(results := s.results[1..], out := s.out[s.results[0].0 := s.results[0].1])
    case Return => s.(returned := true)
  }

  /** A schedule in which every step could be taken when it was. */
  ghost predicate Runs<W>(s: Pool<W>, steps: seq<Step<W>>)
    decreases |steps|
  {
    steps == [] || (Enabled(s, steps[0]) && Runs(Next(s, steps[0]), steps[1..]))
  }

  function Run<W>(s: Pool<W>, steps: seq<Step<W>>): Pool<W>
    requires Runs(s, steps)
    decreases |steps|
  {
    if steps == [] then s else Run(Next(s, steps[0]), steps[1..])
  }

  // ---- The invariant: ids and items are conserved ----

  function One(b: bool): nat { if b then 1 else 0 }

  /** How many workers satisfy p. */
  ghost function Count<W>(ws: seq<Worker<W>>, p: Worker<W> -> bool): nat {
    if ws == [] then 0 else Count(ws[..|ws| - 1], p) + One(p(ws[|ws| - 1]))
  }

  ghost function Fetchers<W>(ws: seq<Worker<W>>, id: string): nat {
    Count(ws, (v: Worker<W>) => v == Fetching(id))
  }

  ghost function Holders<W>(ws: seq<Worker<W>>, x: (string, W)): nat {
    Count(ws, (v: Worker<W>) => v == Holding(x.0, x.1))
  }

  /** The plain loop's answer: the items of the ids whose fetch and compile succeeded. */
  function Successes<W>(answers: map<string, Option<W>>): map<string, W> {
    map id | id in answers && answers[id].Some? :: answers[id].value
  }

  /** An id is in the channel, under way, or answered, and in one of these places only. */
  ghost predicate IdConserved<W>(s: Pool<W>, all: seq<string>, id: string) {
    multiset(all)[id] == multiset(s.ids)[id] + Fetchers(s.workers, id) + One(id in s.answers)
  }

  /** A success is held by a worker, in the result channel, or collected, and in one of these places only. */
  ghost predicate ItemConserved<W>(s: Pool<W>, x: (string, W)) {
    One(x.0 in s.answers && s.answers[x.0] == Some(x.1))
      == Holders(s.workers, x) + multiset(s.results)[x] + One(x.0 in s.out && s.out[x.0] == x.1)
  }

  /** The same in total numbers. */
  ghost predicate TotalsConserved<W>(s: Pool<W>, all: seq<string>) {
    && |all| == |s.ids| + Count(s.workers, (v: Worker<W>) => v.Fetching?) + |s.answers|
    && |s.answers| >= Count(s.workers, (v: Worker<W>) => v.Holding?) + |s.results| + |s.out|
  }

  ghost predicate Conserved<W(!new)>(s: Pool<W>, all: seq<string>) {
    && (forall id :: IdConserved(s, all, id))
    && (forall x :: ItemConserved(s, x))
    && TotalsConserved(s, all)
  }

  ghost predicate Phases<W>(s: Pool<W>) {
    && (forall w :: 0 <= w < |s.workers| && s.workers[w].Exited? ==> s.ids == [])
    && (s.closed ==> s.ids == [] && forall w :: 0 <= w < |s.workers| ==> s.workers[w].Exited?)
    && (s.returned ==> s.closed && s.results == [])
  }

  ghost predicate PoolOk<W(!new)>(s: Pool<W>, all: seq<string>) {
    Distinct(all) && |s.workers| >= 1 && s.capacity == |all| && Conserved(s, all) && Phases(s)
  }

  lemma {:induction false} CountUpdate<W>(ws: seq<Worker<W>>, w: nat, v: Worker<W>, p: Worker<W> -> bool)
    requires w < |ws|
    ensures Count(ws[w := v], p) + One(p(ws[w])) == Count(ws, p) + One(p(v))
  {
    var ws' := ws[w := v];
    if w == |ws| - 1 {
      assert ws'[..|ws| - 1] == ws[..|ws| - 1];
    } else {
      assert ws'[..|ws| - 1] == ws[..|ws| - 1][w := v];
      CountUpdate(ws[..|ws| - 1], w, v, p);
    }
  }

  lemma {:induction false} CountNone<W>(ws: seq<Worker<W>>, p: Worker<W> -> bool)
    requires forall w :: 0 <= w < |ws| ==> !p(ws[w])
    ensures Count(ws, p) == 0
  {
    if ws != [] { CountNone(ws[..|ws| - 1], p); }
  }

  lemma CountSome<W>(ws: seq<Worker<W>>, w: nat, p: Worker<W> -> bool)
    requires w < |ws| && p(ws[w])
    ensures Count(ws, p) >= 1
    decreases |ws|
  {
  }

  lemma {:induction false} OnceEach(all: seq<string>, id: string)
    requires Distinct(all)
    ensures multiset(all)[id] <= 1
  {
    if all != [] {
      assert all == [all[0]] + all[1..];
      OnceEach(all[1..], id);
    }
  }

  lemma StartOk<W(!new)>(ids: seq<string>, workers: nat)
    requires Distinct(ids) && workers >= 1
    ensures PoolOk(Start<W>(ids, workers), ids)
  {
    var s := Start<W>(ids, workers);
    forall id ensures IdConserved(s, ids, id) { CountNone(s.workers, (v: Worker<W>) => v == Fetching(id)); }
    forall x: (string, W) ensures ItemConserved(s, x) {
      CountNone(s.workers, (v: Worker<W>) => v == Holding(x.0, x.1));
    }
    CountNone(s.workers, (v: Worker<W>) => v.Fetching?);
    CountNone(s.workers, (v: Worker<W>) => v.Holding?);
  }

  /** A fetch is answered for the first time. */
  lemma FetchedIsUnanswered<W(!new)>(s: Pool<W>, all: seq<string>, w: nat)
    requires Distinct(all) && Conserved(s, all) && w < |s.workers| && s.workers[w].Fetching?
    ensures s.workers[w].id !in s.answers
  {
    var id := s.workers[w].id;
    CountSome(s.workers, w, (v: Worker<W>) => v == Fetching(id));
    OnceEach(all, id);
    assert IdConserved(s, all, id);
  }

  /** An item in the result channel has not been collected. */
  lemma SentIsUncollected<W(!new)>(s: Pool<W>)
    requires s.results != [] && forall x :: ItemConserved(s, x)
    ensures s.results[0].0 !in s.out
  {
    var x := s.results[0];
    assert x in multiset(s.results);
    assert ItemConserved(s, x);
    var y := if x.0 in s.out then (x.0, s.out[x.0]) else x;
    assert ItemConserved(s, y);
  }

  /** The worker's own move, given how the count of fetchers of this id changes with it. */
  lemma IdWork<W(!new)>(s: Pool<W>, all: seq<string>, step: Step<W>, id: string)
    requires IdConserved(s, all, id) && Enabled(s, step) && step.Work?
    requires s.workers[step.w].Fetching? ==> s.workers[step.w].id !in s.answers
    requires var w, w' := s.workers[step.w], Next(s, step).workers[step.w];
             Fetchers(Next(s, step).workers, id) + One(w == Fetching(id)) == Fetchers(s.workers, id) + One(w' == Fetching(id))
    ensures IdConserved(Next(s, step), all, id)
  {
    hide Fetchers;
    if s.ids != [] { assert s.ids == [s.ids[0]] + s.ids[1..]; }
  }

  lemma IdStep<W(!new)>(s: Pool<W>, all: seq<string>, step: Step<W>, id: string)
    requires PoolOk(s, all) && Enabled(s, step)
    ensures IdConserved(Next(s, step), all, id)
  {
    assert IdConserved(s, all, id);
    if step.Work? {
      if s.workers[step.w].Fetching? { FetchedIsUnanswered(s, all, step.w); }
      CountUpdate(s.workers, step.w, Next(s, step).workers[step.w], (v: Worker<W>) => v == Fetching(id));
      hide PoolOk, IdConserved, Count;
      IdWork(s, all, step, id);
    } else {
      hide PoolOk, Fetchers;
    }
  }

  /** The worker's own move, given how the count of holders of this item changes with it. */
  lemma ItemMove<W(!new)>(s: Pool<W>, step: Step<W>, x: (string, W))
    requires ItemConserved(s, x) && Enabled(s, step) && step.Work?
    requires s.workers[step.w].Fetching? ==> s.workers[step.w].id !in s.answers
    requires var w, w' := s.workers[step.w], Next(s, step).workers[step.w];
             Holders(Next(s, step).workers, x) + One(w == Holding(x.0, x.1))
             == Holders(s.workers, x) + One(w' == Holding(x.0, x.1))
    ensures ItemConserved(Next(s, step), x)
  {
    hide Holders;
    var s' := Next(s, step);
    if s.workers[step.w].Holding? {
      var sent := (s.workers[step.w].id, s.workers[step.w].item);
      assert multiset(s'.results)[x] == multiset(s.results)[x] + One(sent == x);
    } else {
      assert s'.results == s.results;
    }
  }

  lemma ItemWork<W(!new)>(s: Pool<W>, all: seq<string>, step: Step<W>, x: (string, W))
    requires PoolOk(s, all) && Enabled(s, step) && step.Work?
    ensures ItemConserved(Next(s, step), x)
  {
    assert ItemConserved(s, x);
    CountUpdate(s.workers, step.w, Next(s, step).workers[step.w], (v: Worker<W>) => v == Holding(x.0, x.1));
    if s.workers[step.w].Fetching? { FetchedIsUnanswered(s, all, step.w); }
    hide PoolOk, ItemConserved, Count;
    ItemMove(s, step, x);
  }

  lemma ItemReceive<W(!new)>(s: Pool<W>, x: (string, W))
    requires s.results != [] && forall y :: ItemConserved(s, y)
    ensures ItemConserved(Next(s, Receive), x)
  {
    assert ItemConserved(s, x);
    SentIsUncollected(s);
    assert s.results == [s.results[0]] + s.results[1..];
    assert ItemConserved(s, s.results[0]);
  }

  lemma ItemSame<W(!new)>(s: Pool<W>, step: Step<W>, x: (string, W))
    requires ItemConserved(s, x) && Enabled(s, step) && (step.Close? || step.Return?)
    ensures ItemConserved(Next(s, step), x)
  {
  }

  lemma ItemStep<W(!new)>(s: Pool<W>, all: seq<string>, step: Step<W>, x: (string, W))
    requires PoolOk(s, all) && Enabled(s, step)
    ensures ItemConserved(Next(s, step), x)
  {
    hide ItemConserved, IdConserved, TotalsConserved;
    if step.Work? { ItemWork(s, all, step, x); } else if step.Receive? { ItemReceive(s, x); } else { ItemSame(s, step, x); }
  }

  lemma TotalsWork<W(!new)>(s: Pool<W>, all: seq<string>, step: Step<W>)
    requires TotalsConserved(s, all) && Enabled(s, step) && step.Work?
    requires s.workers[step.w].Fetching? ==> s.workers[step.w].id !in s.answers
    ensures TotalsConserved(Next(s, step), all)
  {
    var s' := Next(s, step);
    CountUpdate(s.workers, step.w, s'.workers[step.w], (v: Worker<W>) => v.Fetching?);
    CountUpdate(s.workers, step.w, s'.workers[step.w], (v: Worker<W>) => v.Holding?);
    hide Count;
  }

  lemma TotalsStep<W(!new)>(s: Pool<W>, all: seq<string>, step: Step<W>)
    requires PoolOk(s, all) && Enabled(s, step)
    ensures TotalsConserved(Next(s, step), all)
  {
    if step.Work? {
      if s.workers[step.w].Fetching? { FetchedIsUnanswered(s, all, step.w); }
      TotalsWork(s, all, step);
    } else {
      if step.Receive? { SentIsUncollected(s); }
      hide Count, IdConserved, ItemConserved;
    }
  }

  lemma NextKeeps<W(!new)>(s: Pool<W>, all: seq<string>, step: Step<W>)
    requires PoolOk(s, all) && Enabled(s, step)
    ensures PoolOk(Next(s, step), all)
    ensures forall id :: id in s.answers ==> id in Next(s, step).answers && Next(s, step).answers[id] == s.answers[id]
  {
    var s' := Next(s, step);
    if step.Work? && s.workers[step.w].Fetching? { FetchedIsUnanswered(s, all, step.w); }
    assert Phases(s') by { if step.Close? { assert s.workers[0].Exited?; } }
    hide IdConserved, ItemConserved, TotalsConserved;
    forall id { IdStep(s, all, step, id); }
    forall x { ItemStep(s, all, step, x); }
    TotalsStep(s, all, step);
  }

  // ---- Blocking, progress and termination ----

  /** A worker that has a result can always send it: the channel is neither full nor closed. */
  lemma SendNeverBlocks<W(!new)>(s: Pool<W>, all: seq<string>, w: nat)
    requires PoolOk(s, all) && w < |s.workers| && s.workers[w].Holding?
    ensures |s.results| < s.capacity && !s.closed
  {
    CountSome(s.workers, w, (v: Worker<W>) => v.Holding?);
  }

  /** Until the pool has returned, some process can move: there is no deadlock. */
  lemma SomeStepIsEnabled<W(!new)>(s: Pool<W>, all: seq<string>) returns (step: Step<W>)
    requires PoolOk(s, all) && !s.returned
    ensures Enabled(s, step)
    ensures step.Work? ==> step.answer == None
  {
    if w :| 0 <= w < |s.workers| && !s.workers[w].Exited? {
      if s.workers[w].Holding? { SendNeverBlocks(s, all, w); }
      step := Work(w, None);
    } else if !s.closed {
      step := Close;
    } else if s.results != [] {
      step := Receive;
    } else {
      step := Return;
    }
  }

  function WorkerWeight<W>(w: Worker<W>): nat {
    match w case Idle => 1 case Fetching(_) => 4 case Holding(_, _) => 3 case Exited => 0
  }

  function WorkersWeight<W>(ws: seq<Worker<W>>): nat {
    if ws == [] then 0 else WorkersWeight(ws[..|ws| - 1]) + WorkerWeight(ws[|ws| - 1])
  }

  /** How many steps are left at most. */
  function Remaining<W>(s: Pool<W>): nat {
    4 * |s.ids| + WorkersWeight(s.workers) + |s.results| + (if s.closed then 0 else 1) + (if s.returned then 0 else 1)
  }

  lemma {:induction false} WeightOfUpdate<W>(ws: seq<Worker<W>>, w: nat, v: Worker<W>)
    requires w < |ws|
    ensures WorkersWeight(ws[w := v]) == WorkersWeight(ws) - WorkerWeight(ws[w]) + WorkerWeight(v)
  {
    var ws' := ws[w := v];
    if w == |ws| - 1 {
      assert ws'[..|ws| - 1] == ws[..|ws| - 1];
    } else {
      assert ws'[..|ws| - 1] == ws[..|ws| - 1][w := v];
      WeightOfUpdate(ws[..|ws| - 1], w, v);
    }
  }

  /** Every step of every schedule uses up one of the remaining steps. */
  lemma StepsRunOut<W>(s: Pool<W>, step: Step<W>)
    requires Enabled(s, step)
    ensures Remaining(Next(s, step)) < Remaining(s)
  {
    if step.Work? {
      var s' := Next(s, step);
      WeightOfUpdate(s.workers, step.w, s'.workers[step.w]);
    }
  }

  /** However the workers were scheduled, the map is the sequential one over one answer for each id. */
  lemma ReturnedMap<W(!new)>(s: Pool<W>, all: seq<string>)
    requires PoolOk(s, all) && s.returned
    ensures s.out == Successes(s.answers)
    ensures forall id :: id in s.answers <==> id in all
  {
    forall id ensures id in s.answers <==> id in all {
      CountNone(s.workers, (v: Worker<W>) => v == Fetching(id));
      assert IdConserved(s, all, id);
      assert id in all <==> id in multiset(all);
    }
    forall x: (string, W)
      ensures x.0 in s.answers && s.answers[x.0] == Some(x.1) <==> x.0 in s.out && s.out[x.0] == x.1
    {
      CountNone(s.workers, (v: Worker<W>) => v == Holding(x.0, x.1));
      assert ItemConserved(s, x);
    }
    forall id ensures id in s.out <==> id in Successes(s.answers)
              ensures id in s.out ==> s.out[id] == Successes(s.answers)[id] {
      if id in s.out { assert (id, s.out[id]).0 in s.answers; }
      if id in Successes(s.answers) { assert (id, s.answers[id].value).0 in s.out; }
    }
  }

  /**
   Every schedule, whatever the answers: it has at most `Remaining` steps, it
   can be continued until the pool returns, each id is answered once, and the
   returned map holds exactly the successes.
  */
  lemma {:induction false} EveryScheduleIsSequential<W(!new)>(s: Pool<W>, all: seq<string>, steps: seq<Step<W>>)
    requires PoolOk(s, all) && Runs(s, steps)
    ensures var s' := Run(s, steps);
            && |steps| + Remaining(s') <= Remaining(s)
            && (s'.returned ==> s'.out == Successes(s'.answers) && forall id :: id in s'.answers <==> id in all)
            && (!s'.returned ==> exists step :: Enabled(s', step))
            && (forall id :: id in s.answers ==> id in s'.answers && s'.answers[id] == s.answers[id])
    decreases |steps|
  {
    if steps == [] {
      if s.returned { ReturnedMap(s, all); } else { var step := SomeStepIsEnabled(s, all); }
    } else {
      NextKeeps(s, all, steps[0]);
      StepsRunOut(s, steps[0]);
      EveryScheduleIsSequential(Next(s, steps[0]), all, steps[1..]);
    }
  }

  /** The move of process `a` when fetches answer as `fetch` says. */
  function Move<W>(s: Pool<W>, a: nat, fetch: string -> Option<W>): Step<W> {
    if a < |s.workers| then Work(a, if s.workers[a].Fetching? then fetch(s.workers[a].id) else None)
    else if a == |s.workers| then Close
    else if a == |s.workers| + 1 then Receive
    else Return
  }

  /** Runs the pool; at each turn any process that can move may be chosen. */
  method CompileTriggersParallel<W(!new)>(ids: seq<string>, buildWorkers: int, fetch: string -> Option<W>)
    returns (out: map<string, W>)
    requires Distinct(ids)
    ensures forall id :: id in out <==> id in ids && fetch(id).Some?
    ensures forall id :: id in out ==> Some(out[id]) == fetch(id)
  {
    var workers := if buildWorkers < 1 then DEFAULT_WORKERS else buildWorkers;
    var s: Pool<W> := Start(ids, workers);
    StartOk<W>(ids, workers);
    while !s.returned
      invariant PoolOk(s, ids)
      invariant forall id :: id in s.answers ==> s.answers[id] == fetch(id)
      decreases Remaining(s)
    {
      ghost var some := SomeStepIsEnabled(s, ids);
      ghost var mover: nat := match some
                              case Work(w, _) => w
                              case Close => |s.workers|
                              case Receive => |s.workers| + 1
                              case Return => |s.workers| + 2;
      assert Enabled(s, Move(s, mover, fetch));
      var a: nat :| a < |s.workers| + 3 && Enabled(s, Move(s, a, fetch));
      NextKeeps(s, ids, Move(s, a, fetch));
      StepsRunOut(s, Move(s, a, fetch));
      s := Next(s, Move(s, a, fetch));
    }
    ReturnedMap(s, ids);
    out := s.out;
  }
}
