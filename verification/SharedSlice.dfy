/**
 The permissions of a request are sorted where they lie, and that slice is shared:
 the default permissions and those of a schema definition are handed to every
 evaluation. Sorters of one two-element slice, interleaved write by write
 (internal/clients/tokenexchange/cache.go:54, internal/signals/signals.go).
*/
module SharedSlice {
  import opened Text
  import Signals

  /** A sorter compares, reads both elements, and writes them back crosswise, the second first. */
  datatype Phase = Comparing | Swapping | Loaded(first: string, second: string) | HalfWritten(second: string) | Done

  datatype State = State(first: string, second: string, sorters: map<nat, Phase>)

  datatype Step = Start(k: nat) | Compare(k: nat) | Load(k: nat) | WriteSecond(k: nat) | WriteFirst(k: nat)

  predicate CanStep(s: State, step: Step) {
    match step
    case Start(k) => k !in s.sorters
    case Compare(k) => k in s.sorters && s.sorters[k].Comparing?
    case Load(k) => k in s.sorters && s.sorters[k].Swapping?
    case WriteSecond(k) => k in s.sorters && s.sorters[k].Loaded?
    case WriteFirst(k) => k in s.sorters && s.sorters[k].HalfWritten?
  }

  function Next(s: State, step: Step): State
    requires CanStep(s, step)
  {
    match step
    case Start(k) => s.(sorters := s.sorters[k := Comparing])
    case Compare(k) => s.(sorters := s.sorters[k := if LessEq(s.first, s.second) then Done else Swapping])
    case Load(k) => s.(sorters := s.sorters[k := Loaded(s.first, s.second)])
    case WriteSecond(k) => s.(second := s.sorters[k].first, sorters := s.sorters[k := HalfWritten(s.sorters[k].second)])
    case WriteFirst(k) => s.(first := s.sorters[k].second, sorters := s.sorters[k := Done])
  }

  ghost predicate Runs(s: State, steps: seq<Step>)
    decreases |steps|
  {
    steps == [] || (CanStep(s, steps[0]) && Runs(Next(s, steps[0]), steps[1..]))
  }

  ghost function Run(s: State, steps: seq<Step>): State
    requires Runs(s, steps)
    decreases |steps|
  {
    if steps == [] then s else Run(Next(s, steps[0]), steps[1..])
  }

  function Elements(s: State): multiset<string> { multiset{s.first, s.second} }

  predicate AllDone(s: State) { forall k :: k in s.sorters ==> s.sorters[k] == Done }

  predicate NobodyWrites(s: State) { forall k :: k in s.sorters ==> s.sorters[k].Comparing? || s.sorters[k].Done? }

  /** A slice that is sorted already is never written, whoever sorts it. */
  lemma {:induction false} SortedStays(s: State, steps: seq<Step>)
    requires LessEq(s.first, s.second) && NobodyWrites(s) && Runs(s, steps)
    ensures Run(s, steps).first == s.first && Run(s, steps).second == s.second
    decreases |steps|
  {
    if steps != [] {
      hide LessEq;
      SortedStays(Next(s, steps[0]), steps[1..]);
    }
  }

  lemma {:induction false} Onward(s: State, steps: seq<Step>, step: Step) returns (steps': seq<Step>)
    requires Runs(s, steps) && CanStep(Run(s, steps), step)
    ensures Runs(s, steps') && Run(s, steps') == Next(Run(s, steps), step)
    decreases |steps|
  {
    if steps == [] {
      steps' := [step];
      assert steps'[1..] == [];
    } else {
      var rest := Onward(Next(s, steps[0]), steps[1..], step);
      steps' := [steps[0]] + rest;
      assert steps'[1..] == rest;
    }
  }

  /** A sorter on its way to its second read. */
  lemma Compares(s: State, steps: seq<Step>, k: nat) returns (steps': seq<Step>)
    requires Runs(s, steps) && k !in Run(s, steps).sorters && !LessEq(Run(s, steps).first, Run(s, steps).second)
    ensures Runs(s, steps')
    ensures Run(s, steps') == Run(s, steps).(sorters := Run(s, steps).sorters[k := Swapping])
  {
    hide Runs, Run, LessEq;
    steps' := Onward(s, steps, Start(k));
    steps' := Onward(s, steps', Compare(k));
  }

  /** The second sorter reads between the two writes of the first: the smaller element is lost and the larger one doubled. */
  lemma RaceLoses(s: State) returns (steps: seq<Step>)
    requires !LessEq(s.first, s.second) && s.sorters == map[]
    ensures Runs(s, steps) && AllDone(Run(s, steps))
    ensures Run(s, steps).first == s.first && Run(s, steps).second == s.first
  {
    assert Runs(s, []) && Run(s, []) == s;
    hide Runs, Run, LessEq;
    steps := Compares(s, [], 0);
    steps := Compares(s, steps, 1);
    steps := Onward(s, steps, Load(0));
    steps := Onward(s, steps, WriteSecond(0));
    steps := Onward(s, steps, Load(1));
    steps := Onward(s, steps, WriteFirst(0));
    steps := Onward(s, steps, WriteSecond(1));
    steps := Onward(s, steps, WriteFirst(1));
  }

  lemma {:induction false} LessEqReflexive(a: string)
    ensures LessEq(a, a)
  {
    if a != "" { LessEqReflexive(a[1..]); }
  }

  /** Every run of sorters keeps the permissions exactly when they were sorted before the first of them started. */
  lemma KeptExactly(s: State)
    requires s.sorters == map[]
    ensures (forall steps :: Runs(s, steps) && AllDone(Run(s, steps)) ==> Elements(Run(s, steps)) == Elements(s))
            <==> LessEq(s.first, s.second)
  {
    if LessEq(s.first, s.second) {
      forall steps | Runs(s, steps) ensures Elements(Run(s, steps)) == Elements(s) {
        SortedStays(s, steps);
      }
    } else {
      LessEqReflexive(s.first);
      var steps := RaceLoses(s);
      assert Elements(Run(s, steps))[s.first] == 2 && Elements(s)[s.first] == 1;
    }
  }

  lemma SortTwo(a: string, b: string)
    ensures Sort([a, b]) == if LessEq(a, b) then [a, b] else [b, a]
  {
    assert [a, b][1..] == [b] && [b][1..] == [] && Sort([b]) == Insert(b, []) == [b];
    assert Insert(a, []) == [a];
  }

  /** A sorter nobody interrupts leaves the slice sorted. */
  lemma AloneSorts(s: State) returns (steps: seq<Step>)
    requires s.sorters == map[]
    ensures Runs(s, steps) && AllDone(Run(s, steps))
    ensures [Run(s, steps).first, Run(s, steps).second] == Sort([s.first, s.second])
  {
    SortTwo(s.first, s.second);
    assert Runs(s, []) && Run(s, []) == s;
    hide Runs, Run, Sort, LessEq;
    if LessEq(s.first, s.second) {
      steps := Onward(s, [], Start(0));
      steps := Onward(s, steps, Compare(0));
    } else {
      steps := Compares(s, [], 0);
      steps := Onward(s, steps, Load(0));
      steps := Onward(s, steps, WriteSecond(0));
      steps := Onward(s, steps, WriteFirst(0));
    }
  }

  /** The shared default permissions are not sorted when the program starts. */
  lemma DefaultsCanLose() returns (steps: seq<Step>)
    ensures var s := State(Signals.DEFAULT_PERMISSIONS[0], Signals.DEFAULT_PERMISSIONS[1], map[]);
            && Runs(s, steps) && AllDone(Run(s, steps))
            && Signals.DEFAULT_PERMISSIONS[1] !in Elements(Run(s, steps))
  {
    var s := State(Signals.DEFAULT_PERMISSIONS[0], Signals.DEFAULT_PERMISSIONS[1], map[]);
    FirstDifference(s.first, s.second, 13);
    steps := RaceLoses(s);
  }

  lemma {:induction false} FirstDifference(a: string, b: string, k: nat)
    requires k < |a| && k < |b| && a[..k] == b[..k] && b[k] < a[k]
    ensures !LessEq(a, b)
  {
    if k > 0 {
      assert a[0] == a[..k][0] && b[0] == b[..k][0];
      assert a[1..][..k - 1] == a[..k][1..] && b[1..][..k - 1] == b[..k][1..];
      FirstDifference(a[1..], b[1..], k - 1);
    }
  }
}
