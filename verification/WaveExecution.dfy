/** Model of the execution stage's walk over the waves (`waveExecution.ts`): the order it
    takes them in, the checkpoint files it leaves, and where a resumed walk starts.

    What happens inside one wave is an oracle, `WaveBody`. */
module WaveExecution {
  import opened Outcomes
  import opened Ordering
  import P = PlanValidator

  datatype PlannedWave = PlannedWave(wave: P.Wave, dependencies: seq<string>)

  type Plan = seq<PlannedWave>

  datatype Summary = Summary(waveId: string, content: string)

  /** A wave ends, or fails before or after its summary was written. */
  datatype WaveRun = Done(content: string) | FailedBefore(error: string) | FailedAfter(content: string, error: string)

  type WaveBody = P.Wave -> WaveRun

  datatype ExecutionError = MissingCheckpoint(number: int) | DependencyMissing(waveId: string) | WaveFailed(error: string)

  /** The local variables of the walk, the summary files by wave number, and the waves
      executed so far. */
  datatype Progress = Progress(
    resume: Option<int>,
    summaries: seq<Summary>,
    completed: set<string>,
    files: map<int, Summary>,
    executed: seq<P.Wave>,
    error: Option<ExecutionError>)

  // ---------- the order of the waves ----------

  function NumberOf(w: PlannedWave): int { w.wave.number }

  predicate IsSetup(w: PlannedWave) { w.wave.kind == P.Setup }

  predicate IsFeature(w: PlannedWave) { w.wave.kind == P.Feature }

  /** Setup waves first, each kind by number. */
  function ExecutionOrder(plan: Plan): Plan {
    SortBy(Filter(plan, IsSetup), NumberOf) + SortBy(Filter(plan, IsFeature), NumberOf)
  }

  predicate Precedes(a: PlannedWave, b: PlannedWave) {
    (IsSetup(a) && IsFeature(b)) || (IsSetup(a) == IsSetup(b) && NumberOf(a) <= NumberOf(b))
  }

  lemma {:induction false} OneKind(plan: Plan, isKind: PlannedWave -> bool)
    ensures multiset(SortBy(Filter(plan, isKind), NumberOf)) == multiset(Filter(plan, isKind))
    ensures SortedBy(SortBy(Filter(plan, isKind), NumberOf), NumberOf)
    ensures forall i :: 0 <= i < |SortBy(Filter(plan, isKind), NumberOf)| ==> isKind(SortBy(Filter(plan, isKind), NumberOf)[i])
  {
    FilterKeeps(plan, isKind);
    SortByCorrect(Filter(plan, isKind), NumberOf);
    hide SortBy, Filter, SortedBy;
  }

  /** The walk visits every wave of the plan as often as it is planned. */
  lemma {:induction false} OrderVisitsAll(plan: Plan)
    ensures multiset(ExecutionOrder(plan)) == multiset(plan)
    ensures |ExecutionOrder(plan)| == |plan|
  {
    OneKind(plan, IsSetup);
    OneKind(plan, IsFeature);
    var a := SortBy(Filter(plan, IsSetup), NumberOf);
    var b := SortBy(Filter(plan, IsFeature), NumberOf);
    assert ExecutionOrder(plan) == a + b;
    hide SortBy, Filter, SortedBy, ExecutionOrder;
    forall w: PlannedWave ensures multiset(a + b)[w] == multiset(plan)[w] {
      FilterCounts(plan, IsSetup, w);
      FilterCounts(plan, IsFeature, w);
    }
    SamePermutation(a + b, plan);
  }

  /** Setup waves come before feature waves, and lower numbers first. */
  lemma {:induction false} OrderIsRight(plan: Plan, i: nat, j: nat)
    requires i < j < |ExecutionOrder(plan)|
    ensures Precedes(ExecutionOrder(plan)[i], ExecutionOrder(plan)[j])
  {
    OneKind(plan, IsSetup);
    OneKind(plan, IsFeature);
    var a := SortBy(Filter(plan, IsSetup), NumberOf);
    var b := SortBy(Filter(plan, IsFeature), NumberOf);
    assert ExecutionOrder(plan) == a + b;
    hide SortBy, Filter, ExecutionOrder;
  }

  /** Setup waves of the same number, and feature waves of the same number, keep the order the
      plan lists them in. */
  lemma {:induction false} OrderIsStable(plan: Plan, number: int)
    ensures WithKey(ExecutionOrder(plan), NumberOf, number)
         == WithKey(Filter(plan, IsSetup), NumberOf, number) + WithKey(Filter(plan, IsFeature), NumberOf, number)
  {
    SortByIsStable(Filter(plan, IsSetup), NumberOf, number);
    SortByIsStable(Filter(plan, IsFeature), NumberOf, number);
    WithKeyConcat(SortBy(Filter(plan, IsSetup), NumberOf), SortBy(Filter(plan, IsFeature), NumberOf), number);
  }

  lemma {:induction false} WithKeyConcat(a: Plan, b: Plan, number: int)
    ensures WithKey(a + b, NumberOf, number) == WithKey(a, NumberOf, number) + WithKey(b, NumberOf, number)
  {
    if b == [] {
      assert a + b == a;
    } else {
      assert (a + b)[..|a + b| - 1] == a + b[..|b| - 1];
      WithKeyConcat(a, b[..|b| - 1], number);
    }
  }

  // ---------- the walk ----------

  predicate Skips(resume: Option<int>, number: int) {
    resume.Some? && resume.value != 0 && number < resume.value
  }

  function SummaryOf(w: PlannedWave, content: string): Summary { Summary(w.wave.id, content) }

  function WithSummary(p: Progress, w: PlannedWave, content: string): Progress {
    p.(executed := p.executed + [w.wave], files := p.files[NumberOf(w) := SummaryOf(w, content)])
  }

  predicate DependenciesMet(w: PlannedWave, completed: set<string>) {
    forall k :: 0 <= k < |w.dependencies| ==> w.dependencies[k] in completed
  }

  function Executed(body: WaveBody, p: Progress, w: PlannedWave): Progress {
    match body(w.wave)
    case FailedBefore(error) => p.(executed := p.executed + [w.wave], error := Some(WaveFailed(error)))
    case FailedAfter(content, error) => WithSummary(p, w, content).(error := Some(WaveFailed(error)))
    case Done(content) =>
      WithSummary(p, w, content).(
        summaries := p.summaries + [SummaryOf(w, content)],
        completed := p.completed + {w.wave.id},
        resume := if p.resume == Some(NumberOf(w)) then None else p.resume)
  }

  function Visited(body: WaveBody, p: Progress, w: PlannedWave): Progress {
    if Skips(p.resume, NumberOf(w)) then
      if NumberOf(w) in p.files then
        p.(summaries := p.summaries + [p.files[NumberOf(w)]], completed := p.completed + {w.wave.id})
      else p.(error := Some(MissingCheckpoint(NumberOf(w))))
    else if !DependenciesMet(w, p.completed) then p.(error := Some(DependencyMissing(w.wave.id)))
    else Executed(body, p, w)
  }

  function Start(resume: Option<int>, files: map<int, Summary>): Progress { Progress(resume, [], {}, files, [], None) }

  /** The walk after its first n waves. */
  function Walk(body: WaveBody, order: Plan, start: Progress, n: nat): Progress
    requires n <= |order|
  {
    if n == 0 then start
    else
      var p := Walk(body, order, start, n - 1);
      if p.error.Some? then p else Visited(body, p, order[n - 1])
  }

  // ---------- one step of any walk ----------

  ghost function IdsOf(order: Plan): set<string> { set i | 0 <= i < |order| :: order[i].wave.id }

  /** A wave is skipped if a resume wave is named, is not zero, has not been executed yet, and
      has a larger number. */
  ghost predicate IsPassed(p: Progress, w: PlannedWave) {
    p.resume.Some? && p.resume.value != 0 && w.wave.number < p.resume.value
  }

  /** Every wave it depends on has come before it. */
  ghost predicate HasItsDependencies(order: Plan, k: nat)
    requires k < |order|
  {
    forall dep :: dep in order[k].dependencies ==> exists i :: 0 <= i < k && order[i].wave.id == dep
  }

  lemma {:induction false} CompletedAreTheFirst(body: WaveBody, order: Plan, resume: Option<int>,
                                                files: map<int, Summary>, k: nat)
    requires k <= |order| && Walk(body, order, Start(resume, files), k).error.None?
    ensures Walk(body, order, Start(resume, files), k).completed == IdsOf(order[..k])
    ensures Walk(body, order, Start(resume, files), k).resume in {None, resume}
  {
    if k > 0 {
      CompletedAreTheFirst(body, order, resume, files, k - 1);
      var p := Walk(body, order, Start(resume, files), k - 1);
      assert Walk(body, order, Start(resume, files), k) == Visited(body, p, order[k - 1]);
      assert Visited(body, p, order[k - 1]).completed == p.completed + {order[k - 1].wave.id};
      hide Walk, Visited;
      assert order[..k] == order[..k - 1] + [order[k - 1]];
      IdsAppend(order[..k - 1], order[k - 1]);
    }
  }

  lemma {:induction false} IdsAppend(order: Plan, w: PlannedWave)
    ensures IdsOf(order + [w]) == IdsOf(order) + {w.wave.id}
  {
    var all := order + [w];
    assert all[|order|] == w;
    forall id | id in IdsOf(order) ensures id in IdsOf(all) {
      var i :| 0 <= i < |order| && order[i].wave.id == id;
      assert all[i].wave.id == id;
    }
  }

  /** Why a walk stops, and what its next wave does otherwise. It stops at a wave it skips for
      want of its summary file, at one it executes for want of a wave it depends on or
      because the wave fails; a wave is executed exactly if it is not skipped and its
      dependencies came before it, and it writes its summary unless it fails before that. */
  lemma {:induction false} WalkStopsFor(body: WaveBody, order: Plan, resume: Option<int>, files: map<int, Summary>,
                                        k: nat)
    requires k < |order| && Walk(body, order, Start(resume, files), k).error.None?
    ensures var p, q, w := Walk(body, order, Start(resume, files), k), Walk(body, order, Start(resume, files), k + 1), order[k];
            var passed, ready, n := IsPassed(p, w), HasItsDependencies(order, k), w.wave.number;
            var ran := !passed && ready;
            && (q.error == Some(MissingCheckpoint(n)) <==> passed && n !in p.files)
            && (q.error == Some(DependencyMissing(w.wave.id)) <==> !passed && !ready)
            && (forall e :: q.error == Some(WaveFailed(e)) <==>
                  ran && (body(w.wave) == FailedBefore(e) || exists c :: body(w.wave) == FailedAfter(c, e)))
            && (q.error.None? <==> if passed then n in p.files else ready && body(w.wave).Done?)
            && q.executed == p.executed + (if ran then [w.wave] else [])
            && q.files == (if ran && !body(w.wave).FailedBefore? then p.files[n := Summary(w.wave.id, body(w.wave).content)] else p.files)
            && (q.error.None? ==> q.summaries == p.summaries + [q.files[n]])
            && (q.error.Some? ==> q.summaries == p.summaries)
            && q.resume == (if ran && body(w.wave).Done? && p.resume == Some(n) then None else p.resume)
  {
    var p := Walk(body, order, Start(resume, files), k);
    CompletedAreTheFirst(body, order, resume, files, k);
    DependenciesCameFirst(order, k);
    hide HasItsDependencies;
    assert Walk(body, order, Start(resume, files), k + 1) == Visited(body, p, order[k]);
    hide Walk, DependenciesMet, IdsOf;
  }

  lemma {:induction false} DependenciesCameFirst(order: Plan, k: nat)
    requires k < |order|
    ensures DependenciesMet(order[k], IdsOf(order[..k])) <==> HasItsDependencies(order, k)
  {
    var dependencies, ids := order[k].dependencies, IdsOf(order[..k]);
    forall dep ensures dep in ids <==> exists i :: 0 <= i < k && order[i].wave.id == dep {
      if dep in ids {
        var i :| 0 <= i < k && order[..k][i].wave.id == dep;
        assert order[i].wave.id == dep;
      }
      if i :| 0 <= i < k && order[i].wave.id == dep {
        assert order[..k][i].wave.id == dep;
      }
    }
    if HasItsDependencies(order, k) {
      forall j | 0 <= j < |dependencies| ensures dependencies[j] in ids {
        assert dependencies[j] in dependencies;
      }
    }
  }

  // ---------- an uninterrupted walk ----------

  /** The waves executed so far each have their summary, in order. */
  ghost predicate AllDone(body: WaveBody, order: Plan, n: nat, p: Progress)
    requires n <= |order|
  {
    && |p.summaries| == n && |p.executed| == n
    && forall i :: 0 <= i < n ==>
         body(order[i].wave).Done? && p.executed[i] == order[i].wave
         && p.summaries[i] == SummaryOf(order[i], body(order[i].wave).content)
  }

  lemma {:induction false} FullStep(body: WaveBody, p: Progress, w: PlannedWave)
    requires p.error.None? && p.resume.None? && Visited(body, p, w).error.None?
    ensures body(w.wave).Done?
    ensures var summary := SummaryOf(w, body(w.wave).content);
            Visited(body, p, w) ==
            p.(summaries := p.summaries + [summary], completed := p.completed + {w.wave.id},
               files := p.files[NumberOf(w) := summary], executed := p.executed + [w.wave])
  {
  }

  /** A walk that gets through n waves has executed them once each, in order. */
  lemma {:induction false} WalkExecutesInOrder(body: WaveBody, order: Plan, files: map<int, Summary>, n: nat)
    requires n <= |order| && Walk(body, order, Start(None, files), n).error.None?
    ensures AllDone(body, order, n, Walk(body, order, Start(None, files), n))
    ensures Walk(body, order, Start(None, files), n).resume.None?
  {
    hide Visited;
    if n > 0 {
      WalkExecutesInOrder(body, order, files, n - 1);
      FullStep(body, Walk(body, order, Start(None, files), n - 1), order[n - 1]);
    }
  }

  /** Position of the wave that wrote the file of a number last. */
  ghost predicate LastWriter(order: Plan, n: nat, number: int, i: nat)
    requires n <= |order|
  {
    i < n && NumberOf(order[i]) == number && forall j :: i < j < n ==> NumberOf(order[j]) != number
  }

  /** The file of each number visited so far holds the summary of the wave that wrote last. */
  ghost predicate FilesAreLast(order: Plan, n: nat, files: map<int, Summary>, summaries: seq<Summary>)
    requires n <= |order| && |summaries| == n
  {
    && (forall i :: 0 <= i < n ==> NumberOf(order[i]) in files)
    && (forall number, i: nat :: LastWriter(order, n, number, i) ==> number in files && files[number] == summaries[i])
  }

  lemma {:induction false} OneMoreFile(order: Plan, n: nat, files: map<int, Summary>, summaries: seq<Summary>,
                                       summary: Summary)
    requires n < |order| && |summaries| == n && FilesAreLast(order, n, files, summaries)
    ensures FilesAreLast(order, n + 1, files[NumberOf(order[n]) := summary], summaries + [summary])
  {
    var after, all := files[NumberOf(order[n]) := summary], summaries + [summary];
    forall number, i: nat | LastWriter(order, n + 1, number, i) ensures number in after && after[number] == all[i] {
      if i < n {
        assert NumberOf(order[n]) != number;
        assert LastWriter(order, n, number, i);
      }
    }
  }

  lemma {:induction false} FilesOfWalk(body: WaveBody, order: Plan, files: map<int, Summary>, n: nat)
    requires n <= |order| && Walk(body, order, Start(None, files), n).error.None?
    ensures var p := Walk(body, order, Start(None, files), n);
            AllDone(body, order, n, p) && FilesAreLast(order, n, p.files, p.summaries)
  {
    hide Visited;
    WalkExecutesInOrder(body, order, files, n);
    if n > 0 {
      FilesOfWalk(body, order, files, n - 1);
      WalkExecutesInOrder(body, order, files, n - 1);
      var q := Walk(body, order, Start(None, files), n - 1);
      FullStep(body, q, order[n - 1]);
      hide FilesAreLast, AllDone;
      OneMoreFile(order, n - 1, q.files, q.summaries, SummaryOf(order[n - 1], body(order[n - 1].wave).content));
    }
  }

  lemma {:induction false} SomeLastWriter(order: Plan, n: nat, i: nat) returns (last: nat)
    requires i < n <= |order|
    ensures LastWriter(order, n, NumberOf(order[i]), last) && i <= last
  {
    if n == i + 1 || NumberOf(order[n - 1]) == NumberOf(order[i]) {
      last := n - 1;
    } else {
      last := SomeLastWriter(order, n - 1, i);
    }
  }

  // ---------- a resumed walk ----------

  /** Position of the first wave with the number, or the end. */
  function FirstNumbered(order: Plan, number: int): (i: nat)
    ensures i <= |order|
    ensures forall j :: 0 <= j < i ==> NumberOf(order[j]) != number
    ensures i < |order| ==> NumberOf(order[i]) == number
  {
    if order == [] || NumberOf(order[0]) == number then 0 else 1 + FirstNumbered(order[1..], number)
  }

  predicate IsSkipped(order: Plan, number: int, i: nat) {
    i < FirstNumbered(order, number) && Skips(Some(number), NumberOf(order[i]))
  }

  /** Every wave a resumed walk skips has its own summary on disk. */
  ghost predicate Checkpointed(body: WaveBody, order: Plan, number: int, files: map<int, Summary>) {
    forall i: nat :: IsSkipped(order, number, i) ==>
                  && body(order[i].wave).Done? && NumberOf(order[i]) in files
                  && files[NumberOf(order[i])] == SummaryOf(order[i], body(order[i].wave).content)
  }

  /** The waves among the first n that a resumed walk executes. */
  ghost function Redone(order: Plan, number: int, n: nat): seq<P.Wave>
    requires n <= |order|
  {
    if n == 0 then []
    else Redone(order, number, n - 1) + (if IsSkipped(order, number, n - 1) then [] else [order[n - 1].wave])
  }

  /** Same standing as the full walk, and the files of the skipped waves untouched. */
  ghost predicate InStep(body: WaveBody, order: Plan, number: int, n: nat, full: Progress, resumed: Progress)
    requires n <= |order|
  {
    && resumed.summaries == full.summaries && resumed.completed == full.completed && resumed.error == full.error
    && resumed.resume == (if n <= FirstNumbered(order, number) then Some(number) else None)
    && resumed.executed == Redone(order, number, n)
    && full.error.None? && full.resume.None?
    && (n <= FirstNumbered(order, number) ==> Checkpointed(body, order, number, resumed.files))
  }

  lemma {:induction false} SkippedStep(body: WaveBody, order: Plan, number: int, n: nat, full: Progress,
                                       resumed: Progress)
    requires n < |order| && InStep(body, order, number, n, full, resumed) && IsSkipped(order, number, n)
    requires Visited(body, full, order[n]).error.None?
    ensures InStep(body, order, number, n + 1, Visited(body, full, order[n]), Visited(body, resumed, order[n]))
  {
  }

  lemma {:induction false} RedoneStep(body: WaveBody, order: Plan, number: int, n: nat, full: Progress,
                                      resumed: Progress)
    requires n < |order| && InStep(body, order, number, n, full, resumed) && !IsSkipped(order, number, n)
    requires Visited(body, full, order[n]).error.None?
    ensures InStep(body, order, number, n + 1, Visited(body, full, order[n]), Visited(body, resumed, order[n]))
  {
    assert n < FirstNumbered(order, number) ==> NumberOf(order[n]) != number;
    assert !Skips(resumed.resume, NumberOf(order[n]));
    assert body(order[n].wave).Done?;
    if n < FirstNumbered(order, number) {
      assert forall i: nat :: IsSkipped(order, number, i) ==> NumberOf(order[i]) < number <= NumberOf(order[n]);
    }
  }

  lemma {:induction false} WalksInStep(body: WaveBody, order: Plan, number: int, earlier: map<int, Summary>,
                                       files: map<int, Summary>, n: nat)
    requires n <= |order| && Checkpointed(body, order, number, files)
    requires Walk(body, order, Start(None, earlier), n).error.None?
    ensures InStep(body, order, number, n, Walk(body, order, Start(None, earlier), n), Walk(body, order, Start(Some(number), files), n))
  {
    hide Visited, IsSkipped;
    if n > 0 {
      WalksInStep(body, order, number, earlier, files, n - 1);
      var full := Walk(body, order, Start(None, earlier), n - 1);
      var resumed := Walk(body, order, Start(Some(number), files), n - 1);
      assert InStep(body, order, number, n - 1, full, resumed);
      if IsSkipped(order, number, n - 1) {
        SkippedStep(body, order, number, n - 1, full, resumed);
      } else {
        RedoneStep(body, order, number, n - 1, full, resumed);
      }
    }
  }

  lemma {:induction false} FailsAlike(body: WaveBody, order: Plan, number: int, n: nat, full: Progress,
                                      resumed: Progress)
    requires FirstNumbered(order, number) <= n < |order| && InStep(body, order, number, n, full, resumed)
    requires Visited(body, full, order[n]).error.Some?
    ensures var f, r := Visited(body, full, order[n]), Visited(body, resumed, order[n]);
            r.error == f.error && r.summaries == f.summaries
  {
  }

  lemma {:induction false} FailedStays(body: WaveBody, order: Plan, start: Progress, n: nat, m: nat)
    requires n <= m <= |order| && Walk(body, order, start, n).error.Some?
    ensures Walk(body, order, start, m) == Walk(body, order, start, n)
  {
    hide Visited;
    if n < m {
      FailedStays(body, order, start, n, m - 1);
    }
  }

  /** How far a walk gets: to the end, or to the wave that stops it. */
  lemma {:induction false} StopsAt(body: WaveBody, order: Plan, start: Progress, n: nat) returns (k: nat)
    requires n <= |order| && start.error.None? && Walk(body, order, start, n).error.Some?
    ensures k < n && Walk(body, order, start, k).error.None? && Walk(body, order, start, k + 1).error.Some?
  {
    hide Visited;
    if Walk(body, order, start, n - 1).error.Some? {
      k := StopsAt(body, order, start, n - 1);
    } else {
      k := n - 1;
    }
  }

  /** A walk resumed at a wave number ends as the full walk does, with the same summaries
      in the same order, and executes just the waves it does not skip, provided each
      skipped wave left its own summary. */
  lemma {:induction false} ResumedWalkRefinesFull(body: WaveBody, order: Plan, number: int, earlier: map<int, Summary>,
                                                  files: map<int, Summary>)
    requires Checkpointed(body, order, number, files)
    requires Walk(body, order, Start(None, earlier), FirstNumbered(order, number)).error.None?
    ensures var full := Walk(body, order, Start(None, earlier), |order|);
            var resumed := Walk(body, order, Start(Some(number), files), |order|);
            && resumed.error == full.error && resumed.summaries == full.summaries
            && (full.error.None? ==> resumed.executed == Redone(order, number, |order|))
  {
    hide Visited, FirstNumbered, IsSkipped, Checkpointed, Redone;
    var a, b := Start(None, earlier), Start(Some(number), files);
    var full := Walk(body, order, a, |order|);
    if full.error.None? {
      WalksInStep(body, order, number, earlier, files, |order|);
    } else {
      var k := StopsAt(body, order, a, |order|);
      if k < FirstNumbered(order, number) {
        FailedStays(body, order, a, k + 1, FirstNumbered(order, number));
        assert false;
      }
      WalksInStep(body, order, number, earlier, files, k);
      FailsAlike(body, order, number, k, Walk(body, order, a, k), Walk(body, order, b, k));
      FailedStays(body, order, a, k + 1, |order|);
      FailedStays(body, order, b, k + 1, |order|);
    }
  }

  ghost predicate DistinctIds(plan: Plan) {
    forall i, j :: 0 <= i < j < |plan| ==> plan[i].wave.id != plan[j].wave.id
  }

  ghost predicate DistinctNumbers(plan: Plan) {
    forall i, j :: 0 <= i < j < |plan| ==> NumberOf(plan[i]) != NumberOf(plan[j])
  }

  /** None of the first n waves shares its number, and so its file, with a skipped one
      before it. */
  ghost predicate SkippedApart(order: Plan, number: int, n: nat)
    requires n <= |order|
  {
    forall i: nat, j: nat :: i < j < n && IsSkipped(order, number, i) ==> NumberOf(order[i]) != NumberOf(order[j])
  }

  /** A walk that got as far as the wave to resume at, or further, left every checkpoint the
      resumed walk needs exactly when no wave it went through shares the number of a wave to
      skip before it. */
  lemma {:induction false} CheckpointsAreThere(body: WaveBody, order: Plan, number: int, n: nat, files: map<int,
                                               Summary>)
    requires DistinctIds(order) && FirstNumbered(order, number) <= n <= |order|
    requires Walk(body, order, Start(None, files), n).error.None?
    ensures Checkpointed(body, order, number, Walk(body, order, Start(None, files), n).files)
            <==> SkippedApart(order, number, n)
  {
    var p := Walk(body, order, Start(None, files), n);
    FilesOfWalk(body, order, files, n);
    hide Walk, FirstNumbered;
    if SkippedApart(order, number, n) {
      forall i: nat | IsSkipped(order, number, i)
        ensures body(order[i].wave).Done? && NumberOf(order[i]) in p.files
        ensures p.files[NumberOf(order[i])] == SummaryOf(order[i], body(order[i].wave).content)
      {
        var last := SomeLastWriter(order, n, i);
        assert last == i;
      }
    }
    if Checkpointed(body, order, number, p.files) {
      forall i: nat, j: nat | i < j < n && IsSkipped(order, number, i) ensures NumberOf(order[i]) != NumberOf(order[j]) {
        var last := SomeLastWriter(order, n, j);
        assert p.files[NumberOf(order[j])] == p.summaries[last];
        assert order[i].wave.id != order[last].wave.id;
      }
    }
  }

  /** The broken body does as the other one up to wave f and fails there. */
  ghost predicate BreaksAt(body: WaveBody, broken: WaveBody, order: Plan, f: nat, files: map<int, Summary>)
    requires f < |order|
  {
    && (forall i :: 0 <= i < f ==> broken(order[i].wave) == body(order[i].wave))
    && Walk(body, order, Start(None, files), f).error.None?
    && Walk(broken, order, Start(None, files), f + 1).error.Some?
  }

  lemma {:induction false} WalksAlike(body: WaveBody, broken: WaveBody, order: Plan, start: Progress, n: nat)
    requires n <= |order| && forall i :: 0 <= i < n ==> broken(order[i].wave) == body(order[i].wave)
    ensures Walk(broken, order, start, n) == Walk(body, order, start, n)
  {
    hide Visited;
    if n > 0 {
      WalksAlike(body, broken, order, start, n - 1);
      VisitsAlike(body, broken, Walk(body, order, start, n - 1), order[n - 1]);
    }
  }

  lemma {:induction false} VisitsAlike(body: WaveBody, broken: WaveBody, p: Progress, w: PlannedWave)
    requires broken(w.wave) == body(w.wave)
    ensures Visited(broken, p, w) == Visited(body, p, w)
  {
  }

  lemma {:induction false} FailureWritesOwnFile(broken: WaveBody, p: Progress, w: PlannedWave, number: int)
    requires number != NumberOf(w)
    ensures number in Visited(broken, p, w).files <==> number in p.files
    ensures number in p.files ==> Visited(broken, p, w).files[number] == p.files[number]
  {
  }

  /** The same holds of a walk that breaks in a wave of that number, the first or a later
      one, whether or not the wave got to write its summary. */
  lemma {:induction false} BrokenWalkCheckpoints(body: WaveBody, broken: WaveBody, order: Plan, g: nat, files: map<int,
                                                 Summary>)
    requires DistinctIds(order) && g < |order| && BreaksAt(body, broken, order, g, files)
    ensures var number := NumberOf(order[g]);
            Checkpointed(body, order, number, Walk(broken, order, Start(None, files), |order|).files) <==> SkippedApart(order, number, g)
  {
    var number, start := NumberOf(order[g]), Start(None, files);
    assert FirstNumbered(order, number) <= g;
    var p := Walk(body, order, start, g);
    CheckpointsAreThere(body, order, number, g, files);
    WalksAlike(body, broken, order, start, g);
    WalkStep(broken, order, start, g);
    hide Walk, Visited, SkippedApart, FirstNumbered;
    var q := Visited(broken, p, order[g]);
    forall i: nat | IsSkipped(order, number, i)
      ensures NumberOf(order[i]) in q.files <==> NumberOf(order[i]) in p.files
      ensures NumberOf(order[i]) in p.files ==> q.files[NumberOf(order[i])] == p.files[NumberOf(order[i])]
    {
      FailureWritesOwnFile(broken, p, order[g], NumberOf(order[i]));
    }
    SameCheckpoints(body, order, number, p.files, q.files);
  }

  lemma {:induction false} SameCheckpoints(body: WaveBody, order: Plan, number: int, d: map<int, Summary>, e: map<int,
                                           Summary>)
    requires forall i: nat :: IsSkipped(order, number, i) ==>
               && (NumberOf(order[i]) in e <==> NumberOf(order[i]) in d)
               && (NumberOf(order[i]) in d ==> e[NumberOf(order[i])] == d[NumberOf(order[i])])
    ensures Checkpointed(body, order, number, d) <==> Checkpointed(body, order, number, e)
  {
  }

  // ---------- loading the summaries without executing ----------

  predicate AllOnDisk(plan: Plan, files: map<int, Summary>) {
    forall i :: 0 <= i < |plan| ==> NumberOf(plan[i]) in files
  }

  /** `loadExecutionSummaries`: in plan order, by wave number; a missing file throws. */
  function LoadSummaries(plan: Plan, files: map<int, Summary>): Option<seq<Summary>> {
    if AllOnDisk(plan, files)
    then Some(seq(|plan|, i requires 0 <= i < |plan| && NumberOf(plan[i]) in files => files[NumberOf(plan[i])]))
    else None
  }

  lemma {:induction false} SamePlace(plan: Plan, order: Plan, i: nat, j: nat)
    requires DistinctIds(plan) && multiset(order) == multiset(plan)
    requires i < |order| && j < |plan| && order[i].wave.id == plan[j].wave.id
    ensures order[i] == plan[j]
  {
    SamePermutation(order, plan);
    assert order[i] in order;
    var k :| 0 <= k < |plan| && plan[k] == order[i];
    assert k == j;
  }

  lemma {:induction false} OrderKeepsIdsApart(plan: Plan, order: Plan)
    requires DistinctIds(plan) && multiset(order) == multiset(plan)
    ensures DistinctIds(order)
  {
    SamePermutation(order, plan);
    assert NoDuplicates(plan);
    PermutationKeepsNoDuplicates(plan, order);
    forall i, j | 0 <= i < j < |order| ensures order[i].wave.id != order[j].wave.id {
      assert order[j] in order;
      var k :| 0 <= k < |plan| && plan[k] == order[j];
      if order[i].wave.id == plan[k].wave.id {
        SamePlace(plan, order, i, k);
      }
    }
  }

  /** The summaries loaded after a finished walk are those it returned exactly when the
      plan lists its waves in execution order and numbers them apart. */
  lemma {:induction false} SummariesReloadInOrder(body: WaveBody, plan: Plan, files: map<int, Summary>)
    requires DistinctIds(plan)
    requires Walk(body, ExecutionOrder(plan), Start(None, files), |ExecutionOrder(plan)|).error.None?
    ensures var p := Walk(body, ExecutionOrder(plan), Start(None, files), |ExecutionOrder(plan)|);
            LoadSummaries(plan, p.files) == Some(p.summaries) <==> ExecutionOrder(plan) == plan && DistinctNumbers(plan)
  {
    var order := ExecutionOrder(plan);
    var p := Walk(body, order, Start(None, files), |order|);
    OrderVisitsAll(plan);
    OrderKeepsIdsApart(plan, order);
    FilesOfWalk(body, order, files, |order|);
    hide Walk, ExecutionOrder;
    if order == plan && DistinctNumbers(plan) {
      forall i: nat | i < |plan| ensures NumberOf(plan[i]) in p.files && p.files[NumberOf(plan[i])] == p.summaries[i] {
        assert LastWriter(order, |order|, NumberOf(plan[i]), i);
      }
      assert AllOnDisk(plan, p.files);
      assert LoadSummaries(plan, p.files).value == p.summaries;
    }
    if LoadSummaries(plan, p.files) == Some(p.summaries) {
      ReloadedInOrder(body, plan, order, p);
    }
  }

  lemma {:induction false} ReloadedInOrder(body: WaveBody, plan: Plan, order: Plan, p: Progress)
    requires DistinctIds(plan) && DistinctIds(order) && multiset(order) == multiset(plan) && |order| == |plan|
    requires AllDone(body, order, |order|, p) && LoadSummaries(plan, p.files) == Some(p.summaries)
    requires FilesAreLast(order, |order|, p.files, p.summaries)
    ensures order == plan && DistinctNumbers(plan)
  {
    forall i | 0 <= i < |plan| ensures p.files[NumberOf(plan[i])].waveId == order[i].wave.id {
      assert LoadSummaries(plan, p.files).value[i] == p.files[NumberOf(plan[i])];
    }
    forall i, j | 0 <= i < j < |plan| ensures NumberOf(plan[i]) != NumberOf(plan[j]) {
      assert order[i].wave.id != order[j].wave.id;
    }
    SamePermutation(order, plan);
    forall i: nat | i < |plan| ensures order[i] == plan[i] {
      assert plan[i] in plan;
      var at: nat :| at < |order| && order[at] == plan[i];
      var last := SomeLastWriter(order, |order|, at);
      assert order[last] in order;
      var k :| 0 <= k < |plan| && plan[k] == order[last];
      assert k == i;
      SamePlace(plan, order, i, i);
    }
  }

  lemma {:induction false} OrderHasAll(plan: Plan)
    ensures |ExecutionOrder(plan)| == |plan|
    ensures forall w: PlannedWave :: w in ExecutionOrder(plan) <==> w in plan
  {
    OrderVisitsAll(plan);
    hide ExecutionOrder;
    SamePermutation(ExecutionOrder(plan), plan);
  }

  lemma {:induction false} TwoInOrder(first: PlannedWave, second: PlannedWave)
    requires IsFeature(first) && IsFeature(second) && NumberOf(first) < NumberOf(second)
    ensures ExecutionOrder([second, first]) == [first, second]
  {
    hide ExecutionOrder, SortBy, Filter;
    var plan := [second, first];
    var order := ExecutionOrder(plan);
    OrderHasAll(plan);
    OrderIsRight(plan, 0, 1);
    assert plan[0] in order && plan[1] in order;
    assert order[0] in plan && order[1] in plan;
    assert order[0] == first && order[1] == second;
  }

  /** Two independent feature waves listed in the wrong order: the walk returns the summary
      of the lower number first, loading them afterwards gives that of the higher first. */
  lemma {:induction false} TwoReloadSwapped(body: WaveBody, first: PlannedWave, second: PlannedWave, files: map<int,
                                            Summary>)
    requires IsFeature(first) && IsFeature(second) && NumberOf(first) < NumberOf(second)
    requires first.dependencies == [] && second.dependencies == []
    requires body(first.wave).Done? && body(second.wave).Done?
    ensures var p := Walk(body, ExecutionOrder([second, first]), Start(None, files), |ExecutionOrder([second, first])|);
            var a, b := SummaryOf(first, body(first.wave).content), SummaryOf(second, body(second.wave).content);
            p.error.None? && p.summaries == [a, b] && LoadSummaries([second, first], p.files) == Some([b, a])
  {
    TwoInOrder(first, second);
    var order, start := [first, second], Start(None, files);
    assert Walk(body, order, start, 0) == start;
    hide ExecutionOrder, Walk;
    var a, b := SummaryOf(first, body(first.wave).content), SummaryOf(second, body(second.wave).content);
    WalkStep(body, order, start, 0);
    WalkStep(body, order, start, 1);
    var p := Walk(body, order, start, 2);
    assert p.summaries == [a] + [b];
    assert p.files == files[NumberOf(first) := a][NumberOf(second) := b];
    assert AllOnDisk([second, first], p.files);
    assert LoadSummaries([second, first], p.files).value == [b, a];
  }

  /** A plan whose summaries come back in another order than the walk returned them. */
  lemma {:induction false} SummariesCanComeBackSwapped(files: map<int, Summary>)
    ensures var body: WaveBody := (w: P.Wave) => Done("finished");
            var plan := [PlannedWave(P.Wave("w2", 2, P.Feature, [], false), []), PlannedWave(P.Wave("w1", 1, P.Feature, [], false), [])];
            var p := Walk(body, ExecutionOrder(plan), Start(None, files), |ExecutionOrder(plan)|);
            p.error.None? && LoadSummaries(plan, p.files).Some? && LoadSummaries(plan, p.files).value != p.summaries
  {
    hide ExecutionOrder, Walk, LoadSummaries;
    var first := PlannedWave(P.Wave("w1", 1, P.Feature, [], false), []);
    var second := PlannedWave(P.Wave("w2", 2, P.Feature, [], false), []);
    assert first.wave.id[1] != second.wave.id[1];
    TwoReloadSwapped((w: P.Wave) => Done("finished"), first, second, files);
  }

  // ---------- the walk in place ----------

  lemma {:induction false} WalkStep(body: WaveBody, order: Plan, start: Progress, i: nat)
    requires i < |order| && Walk(body, order, start, i).error.None?
    ensures Walk(body, order, start, i + 1) == Visited(body, Walk(body, order, start, i), order[i])
    ensures Walk(body, order, start, i + 1).error.Some?
            ==> Walk(body, order, start, |order|) == Walk(body, order, start, i + 1)
  {
    if Walk(body, order, start, i + 1).error.Some? {
      FailedStays(body, order, start, i + 1, |order|);
    }
  }

  class WaveStore {
    /** `wave-summary.json` by wave number. */
    var files: map<int, Summary>

    constructor (initial: map<int, Summary>)
      ensures files == initial
    {
      files := initial;
    }

    /** `execution`: the loop over the ordered waves, writing the summary files. */
    method Execution(body: WaveBody, plan: Plan, resumeAt: Option<int>)
      returns (out: Outcome<seq<Summary>, ExecutionError>, executed: seq<P.Wave>)
      modifies this
      ensures var end := Walk(body, ExecutionOrder(plan), Start(resumeAt, old(files)), |ExecutionOrder(plan)|);
              && files == end.files && executed == end.executed
              && out == (if end.error.Some? then Thrown(end.error.value) else Ok(end.summaries))
    {
      var order, resume := ExecutionOrder(plan), resumeAt;
      var summaries: seq<Summary>, completed: set<string> := [], {};
      executed := [];
      ghost var start := Start(resumeAt, files);
      assert Walk(body, order, start, 0) == start;
      hide Walk, ExecutionOrder;
      for i := 0 to |order|
        invariant Walk(body, order, start, i) == Progress(resume, summaries, completed, files, executed, None)
      {
        var w := order[i];
        WalkStep(body, order, start, i);
        if Skips(resume, NumberOf(w)) {
          if NumberOf(w) !in files {
            return Thrown(MissingCheckpoint(NumberOf(w))), executed;
          }
          summaries, completed := summaries + [files[NumberOf(w)]], completed + {w.wave.id};
        } else {
          if !DependenciesMet(w, completed) {
            return Thrown(DependencyMissing(w.wave.id)), executed;
          }
          var ran := body(w.wave);
          executed := executed + [w.wave];
          if ran.FailedBefore? {
            return Thrown(WaveFailed(ran.error)), executed;
          }
          files := files[NumberOf(w) := SummaryOf(w, ran.content)];
          if ran.FailedAfter? {
            return Thrown(WaveFailed(ran.error)), executed;
          }
          summaries, completed := summaries + [SummaryOf(w, ran.content)], completed + {w.wave.id};
          if resume == Some(NumberOf(w)) { resume := None; }
        }
      }
      out := Ok(summaries);
    }
  }
}
