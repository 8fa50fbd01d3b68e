/**
 Refreshers always get on: until none is left one of them can move, and every
 move uses up a measure, so between requests the cache comes to rest
 (internal/services/webhookcache/webhook_cache.go).
*/
module RefreshProgress {
  import opened Domain
  import opened Repository
  import opened RefreshProtocol
  import H = Handlers
  import WebhookIndex

  /** A step of a refresher. */
  predicate IsMove(step: Step) { !step.Store? && !step.Request? && !step.End? }

  /** Refreshers by phase. */
  datatype Stage = AtSleep | AtWake | AtRead | AtFetch

  function StageOf(p: Phase): Stage {
    match p
    case Sleeping => AtSleep
    case Awake => AtWake
    case Cleared => AtRead
    case Populating(_, _) => AtFetch
  }

  ghost function At(s: Service, stage: Stage): set<nat> {
    set r | r in s.refreshers && StageOf(s.refreshers[r]) == stage
  }

  /** Fetches to come, one for each populate and trigger. */
  ghost function Unfetched(s: Service): set<(nat, string)> {
    set r, i | r in s.refreshers && s.refreshers[r].Populating? && 0 <= i < |s.refreshers[r].rows|
               && s.refreshers[r].rows[i].triggerId !in s.refreshers[r].answers
      :: (r, s.refreshers[r].rows[i].triggerId)
  }

  /** Moves before the subscriptions are read. */
  ghost function Early(s: Service): nat { 3 * |At(s, AtSleep)| + 2 * |At(s, AtWake)| + |At(s, AtRead)| }

  /** Moves after that. */
  ghost function Late(s: Service): nat { |Unfetched(s)| + |At(s, AtFetch)| }

  ghost predicate Lowers(s: Service, s': Service) {
    Early(s') < Early(s) || (Early(s') == Early(s) && Late(s') < Late(s))
  }

  /** A refresher that changes phase leaves one stage for another, or goes. */
  lemma StagesMove(s: Service, s': Service, r: nat, stage: Stage)
    requires r in s.refreshers && (forall q :: q != r ==> (q in s'.refreshers <==> q in s.refreshers))
    requires forall q :: q != r && q in s.refreshers ==> s'.refreshers[q] == s.refreshers[q]
    ensures |At(s', stage)| == |At(s, stage)|
                               - (if StageOf(s.refreshers[r]) == stage then 1 else 0)
                               + (if r in s'.refreshers && StageOf(s'.refreshers[r]) == stage then 1 else 0)
  {
    StageWithout(s, r, stage);
    StageWithout(s', r, stage);
    assert At(s', stage) - {r} == At(s, stage) - {r};
    hide At;
  }

  lemma StageWithout(s: Service, r: nat, stage: Stage)
    ensures |At(s, stage)| == |At(s, stage) - {r}| + if r in s.refreshers && StageOf(s.refreshers[r]) == stage then 1 else 0
  {
    assert r in At(s, stage) <==> r in s.refreshers && StageOf(s.refreshers[r]) == stage;
    if r in At(s, stage) {
      assert At(s, stage) == (At(s, stage) - {r}) + {r};
    } else {
      assert At(s, stage) == At(s, stage) - {r};
    }
  }

  lemma FetchUsesOne(env: Env, s: Service, step: Step)
    requires CanStep(s, step) && step.ReadTrigger?
    ensures |Unfetched(Next(env, s, step))| < |Unfetched(s)|
  {
    hide WebhookIndex.Compile;
    var s' := Next(env, s, step);
    var i :| 0 <= i < |s.refreshers[step.r].rows| && s.refreshers[step.r].rows[i].triggerId == step.id;
    assert (step.r, step.id) in Unfetched(s) && (step.r, step.id) !in Unfetched(s');
    assert Unfetched(s') <= Unfetched(s) - {(step.r, step.id)};
    Smaller(Unfetched(s'), Unfetched(s) - {(step.r, step.id)});
  }

  lemma Smaller<T>(a: set<T>, b: set<T>)
    requires a <= b
    ensures |a| <= |b|
  {
    assert b == a + (b - a);
  }

  lemma PublishUsesOne(env: Env, s: Service, step: Step)
    requires CanStep(s, step) && step.Publish?
    ensures Unfetched(Next(env, s, step)) <= Unfetched(s)
  {
  }

  /** Every move of a refresher lowers the measure. */
  lemma MovesRunOut(env: Env, s: Service, step: Step)
    requires CanStep(s, step) && IsMove(step)
    ensures Lowers(s, Next(env, s, step))
  {
    var s' := Next(env, s, step);
    if step.ReadTrigger? { FetchUsesOne(env, s, step); }
    if step.Publish? {
      PublishUsesOne(env, s, step);
      Smaller(Unfetched(s'), Unfetched(s));
    }
    forall stage
      ensures |At(s', stage)| == |At(s, stage)|
                                 - (if StageOf(s.refreshers[step.r]) == stage then 1 else 0)
                                 + (if step.r in s'.refreshers && StageOf(s'.refreshers[step.r]) == stage then 1 else 0)
    {
      hide H.Next, WebhookIndex.Compile, WebhookIndex.BuildIndex;
      StagesMove(s, s', step.r, stage);
    }
    hide At, Unfetched;
  }

  lemma {:induction false} SomeEnumeration<T>(elements: set<T>) returns (rows: seq<T>)
    ensures Enumerates(rows, elements)
    decreases |elements|
  {
    if elements == {} {
      rows := [];
    } else {
      var x :| x in elements;
      var rest := SomeEnumeration(elements - {x});
      rows := rest + [x];
    }
  }

  /** While any refresher is left, one can move, and its read fails exactly when its context is over. */
  lemma SomeMove(s: Service) returns (step: Step)
    requires s.refreshers != map[]
    ensures CanStep(s, step) && IsMove(step)
    ensures step.ReadRows? || step.FailRows? || step.ReadTrigger? ==> (Fails(step) <==> !Alive(s, step.r))
  {
    var r :| r in s.refreshers;
    match s.refreshers[r]
    case Sleeping => step := Wake(r);
    case Awake => step := Clear(r);
    case Cleared =>
      var rows := SomeEnumeration(LiveSubscriptions(s.store.db));
      step := if Alive(s, r) then ReadRows(r, rows) else FailRows(r);
    case Populating(rows, answers) =>
      if AllAnswered(s.refreshers[r]) {
        step := Publish(r);
      } else {
        var i :| 0 <= i < |rows| && rows[i].triggerId !in answers;
        step := ReadTrigger(r, rows[i].triggerId, !Alive(s, r));
      }
  }

  /** Moves neither end contexts nor start refreshers. */
  lemma MovesKeepContexts(env: Env, s: Service, step: Step)
    requires CanStep(s, step) && IsMove(step)
    ensures var s' := Next(env, s, step);
            s'.contexts == s.contexts && s'.ended == s.ended && s'.refreshers.Keys <= s.refreshers.Keys
  {
  }

  /**
   From any state the refreshers alone can bring the cache to rest, with reads
   that fail under contexts that are over and nowhere else.
  */
  lemma {:induction false} ComesToRest(env: Env, s: Service) returns (steps: seq<Step>)
    ensures Runs(env, s, steps) && Run(env, s, steps).refreshers == map[] && Faultless(env, s, steps)
    ensures forall i :: 0 <= i < |steps| ==> IsMove(steps[i])
    ensures (forall r :: r in s.refreshers ==> Alive(s, r)) ==> forall i :: 0 <= i < |steps| ==> !Fails(steps[i])
    decreases Early(s), Late(s)
  {
    if s.refreshers == map[] {
      steps := [];
    } else {
      var step := SomeMove(s);
      MovesRunOut(env, s, step);
      MovesKeepContexts(env, s, step);
      assert step.r in s.refreshers;
      hide IsMove, Enumerates, CanStep, Next;
      var rest := ComesToRest(env, Next(env, s, step));
      steps := [step] + rest;
      assert steps[1..] == rest;
    }
  }
}
