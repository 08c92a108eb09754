/** Model of the per-project pipeline (`projectStageRegistry.ts` and `runProjectStages` in
    `workflow.ts`): eight stages, each either executed or, when a resume starts later,
    loaded from the file it left behind.

    The stage bodies are oracles that see the artifacts produced so far. Running a stage
    writes its file; the artifact handed on in the context is not always the one written. */
module ProjectPipeline {
  import opened Outcomes
  import opened WaveExecution
  import Ordering
  import P = PlanValidator

  // ---------- data ----------

  datatype StageId =
    | Requirements | Architecture | Planning | Execution | ProjectReview | Qa | Documentation | Handoff

  /** `PROJECT_STAGE_ORDER`. */
  function StageAt(i: nat): StageId
    requires i < 8
  {
    [Requirements, Architecture, Planning, Execution, ProjectReview, Qa, Documentation, Handoff][i]
  }

  function Index(s: StageId): (i: nat)
    ensures i < 8 && StageAt(i) == s
  {
    match s
    case Requirements => 0
    case Architecture => 1
    case Planning => 2
    case Execution => 3
    case ProjectReview => 4
    case Qa => 5
    case Documentation => 6
    case Handoff => 7
  }

  datatype Prd = Prd(text: string)
  datatype Design = Design(text: string)
  datatype Review = Review(text: string)
  datatype Docs = Docs(text: string)

  datatype Artifacts = Artifacts(
    prd: Option<Prd>,
    architecture: Option<Design>,
    plan: Option<Plan>,
    summaries: Option<seq<Summary>>,
    review: Option<Review>,
    documentation: Option<Docs>)

  /** A project context; `supabase` is its `configured` flag, when set. */
  datatype Context = Context(artifacts: Artifacts, supabase: Option<bool>)

  /** The stage files of one project in one run. `scopedPrd` is the PRD under the
      project's own file name, which only a prepared import writes. */
  datatype Disk = Disk(
    scopedPrd: Option<Prd>,
    prd: Option<Prd>,
    architecture: Option<Design>,
    plan: Option<Plan>,
    waves: map<int, Summary>,
    review: Option<Review>,
    documentation: Option<Docs>)

  /** A stage ends with an approved artifact, or throws, maybe after writing a draft. */
  datatype Drafted<+T> = Accepted(value: T) | Rejected(draft: Option<T>, error: string)

  datatype Bodies = Bodies(
    requirements: Artifacts -> Drafted<Prd>,
    architecture: Artifacts -> Drafted<Design>,
    planning: (Artifacts, bool) -> Drafted<Plan>,
    readiness: Option<Plan -> bool>,
    wave: Artifacts -> WaveBody,
    review: Artifacts -> Drafted<Review>,
    qa: Artifacts -> Option<string>,
    documentation: Artifacts -> Drafted<Docs>,
    handoff: Artifacts -> Option<string>)

  datatype Resume = Resume(start: StageId, waveNumber: Option<int>)

  datatype Failure =
    | InvariantViolated(stage: StageId)
    | FileMissing(stage: StageId)
    | StageThrew(stage: StageId, error: string)
    | NotReady
    | ExecutionThrew(cause: ExecutionError)
    | Cancelled

  datatype State = State(ctx: Context, disk: Disk, executed: seq<StageId>, failure: Option<Failure>)

  // ---------- the invariants between stages ----------

  /** What the `assertWith…` check in front of a stage demands. */
  predicate Allows(a: Artifacts, s: StageId) {
    match s
    case Requirements => true
    case Qa => true
    case Architecture => a.prd.Some?
    case Planning => a.prd.Some? && a.architecture.Some?
    case Execution => a.prd.Some? && a.architecture.Some? && a.plan.Some?
    case ProjectReview => a.prd.Some? && a.architecture.Some? && a.plan.Some? && a.summaries.Some?
    case Documentation => a.prd.Some? && a.architecture.Some? && a.plan.Some? && a.summaries.Some? && a.review.Some?
    case Handoff =>
      a.prd.Some? && a.architecture.Some? && a.plan.Some? && a.summaries.Some? && a.review.Some? && a.documentation.Some?
  }

  // ---------- running and loading a stage ----------

  function Draft<T>(result: Drafted<T>, previous: Option<T>): Option<T> {
    match result
    case Accepted(value) => Some(value)
    case Rejected(draft, _) => if draft.Some? then draft else previous
  }

  function Threw<T>(s: StageId, result: Drafted<T>): Option<Failure> {
    if result.Rejected? then Some(StageThrew(s, result.error)) else None
  }

  function Kept<T>(result: Drafted<T>, previous: Option<T>): Option<T> {
    if result.Accepted? then Some(result.value) else previous
  }

  /** The plan after the parallelism pass, which runs when the file is already written. */
  ghost function Serialized(plan: Plan): Plan {
    seq(|plan|, i requires 0 <= i < |plan| => plan[i].(wave := P.Enforced(plan[i].wave)))
  }

  ghost function RunPlanning(b: Bodies, st: State): State {
    var configured := b.readiness.Some?;
    var result := b.planning(st.ctx.artifacts, configured);
    State(
      if result.Accepted? then Context(st.ctx.artifacts.(plan := Some(Serialized(result.value))), Some(configured)) else st.ctx,
      st.disk.(plan := Draft(result, st.disk.plan)), st.executed, Threw(Planning, result))
  }

  function RunExecution(b: Bodies, resumeAt: Option<int>, plan: Plan, st: State): State {
    if b.readiness.Some? && !b.readiness.value(plan) then st.(failure := Some(NotReady))
    else
      var order := ExecutionOrder(plan);
      var end := Walk(b.wave(st.ctx.artifacts), order, Start(resumeAt, st.disk.waves), |order|);
      var written := st.(disk := st.disk.(waves := end.files));
      if end.error.Some? then written.(failure := Some(ExecutionThrew(end.error.value)))
      else written.(ctx := st.ctx.(artifacts := st.ctx.artifacts.(summaries := Some(end.summaries))))
  }

  ghost function RunBody(b: Bodies, resumeAt: Option<int>, s: StageId, st: State): State
    requires Allows(st.ctx.artifacts, s)
  {
    var a := st.ctx.artifacts;
    match s
    case Requirements =>
      var r := b.requirements(a);
      State(st.ctx.(artifacts := a.(prd := Kept(r, a.prd))), st.disk.(prd := Draft(r, st.disk.prd)), st.executed, Threw(s, r))
    case Architecture =>
      var r := b.architecture(a);
      State(st.ctx.(artifacts := a.(architecture := Kept(r, a.architecture))),
            st.disk.(architecture := Draft(r, st.disk.architecture)), st.executed, Threw(s, r))
    case Planning => RunPlanning(b, st)
    case Execution => RunExecution(b, resumeAt, a.plan.value, st)
    case ProjectReview =>
      var r := b.review(a);
      State(st.ctx.(artifacts := a.(review := Kept(r, a.review))), st.disk.(review := Draft(r, st.disk.review)), st.executed, Threw(s, r))
    case Qa => if b.qa(a).Some? then st.(failure := Some(StageThrew(s, b.qa(a).value))) else st
    case Documentation =>
      var r := b.documentation(a);
      State(st.ctx.(artifacts := a.(documentation := Kept(r, a.documentation))),
            st.disk.(documentation := Draft(r, st.disk.documentation)), st.executed, Threw(s, r))
    case Handoff => if b.handoff(a).Some? then st.(failure := Some(StageThrew(s, b.handoff(a).value))) else st
  }

  ghost function RunNode(b: Bodies, resumeAt: Option<int>, s: StageId, st: State): State {
    var started := st.(executed := st.executed + [s]);
    if Allows(st.ctx.artifacts, s) then RunBody(b, resumeAt, s, started) else started.(failure := Some(InvariantViolated(s)))
  }

  /** `loadPrd`: the project's own file wins over `prd.json`. */
  function LoadPrd(disk: Disk): Option<Prd> { if disk.scopedPrd.Some? then disk.scopedPrd else disk.prd }

  function Loaded<T>(s: StageId, found: Option<T>): Option<Failure> {
    if found.None? then Some(FileMissing(s)) else None
  }

  function OrElse<T>(found: Option<T>, previous: Option<T>): Option<T> { if found.Some? then found else previous }

  /** `resumeFromDisk`. */
  function LoadNode(s: StageId, st: State): State {
    var a := st.ctx.artifacts;
    match s
    case Requirements =>
      st.(ctx := st.ctx.(artifacts := a.(prd := OrElse(LoadPrd(st.disk), a.prd))), failure := Loaded(s, LoadPrd(st.disk)))
    case Architecture =>
      st.(ctx := st.ctx.(artifacts := a.(architecture := OrElse(st.disk.architecture, a.architecture))),
          failure := Loaded(s, st.disk.architecture))
    case Planning =>
      st.(ctx := st.ctx.(artifacts := a.(plan := OrElse(st.disk.plan, a.plan))), failure := Loaded(s, st.disk.plan))
    case Execution =>
      if !Allows(a, Execution) then st.(failure := Some(InvariantViolated(Execution)))
      else
        var found := LoadSummaries(a.plan.value, st.disk.waves);
        st.(ctx := st.ctx.(artifacts := a.(summaries := OrElse(found, a.summaries))), failure := Loaded(s, found))
    case ProjectReview =>
      st.(ctx := st.ctx.(artifacts := a.(review := OrElse(st.disk.review, a.review))), failure := Loaded(s, st.disk.review))
    case Qa => st
    case Documentation =>
      st.(ctx := st.ctx.(artifacts := a.(documentation := OrElse(st.disk.documentation, a.documentation))),
          failure := Loaded(s, st.disk.documentation))
    case Handoff => st
  }

  predicate ShouldRun(resume: Option<Resume>, s: StageId) {
    resume.None? || Index(s) >= Index(resume.value.start)
  }

  ghost function Node(b: Bodies, resume: Option<Resume>, s: StageId, st: State): State {
    if ShouldRun(resume, s) then RunNode(b, if resume.Some? then resume.value.waveNumber else None, s, st) else LoadNode(s, st)
  }

  /** One turn of the loop: check for cancellation, do the node, check again. */
  ghost function Visit(b: Bodies, resume: Option<Resume>, cancelled: nat -> bool, i: nat, st: State): State
    requires i < 8
  {
    if cancelled(2 * i) then st.(failure := Some(Cancelled))
    else
      var after := Node(b, resume, StageAt(i), st);
      if after.failure.None? && cancelled(2 * i + 1) then after.(failure := Some(Cancelled)) else after
  }

  /** The pipeline after its first n nodes; a failure ends it. */
  ghost function RunTo(b: Bodies, resume: Option<Resume>, cancelled: nat -> bool, start: State, n: nat): State
    requires n <= 8
  {
    if n == 0 then start
    else
      var st := RunTo(b, resume, cancelled, start, n - 1);
      if st.failure.Some? then st else Visit(b, resume, cancelled, n - 1, st)
  }

  function Begin(ctx: Context, disk: Disk): State { State(ctx, disk, [], None) }

  // ---------- which stage owns what ----------

  /** Two disks hold the same files for the first n stages. */
  predicate SameFiles(n: nat, d: Disk, e: Disk) {
    && (n > 0 ==> d.scopedPrd == e.scopedPrd && d.prd == e.prd)
    && (n > 1 ==> d.architecture == e.architecture)
    && (n > 2 ==> d.plan == e.plan)
    && (n > 3 ==> d.waves == e.waves)
    && (n > 4 ==> d.review == e.review)
    && (n > 6 ==> d.documentation == e.documentation)
  }

  predicate SameArtifacts(n: nat, a: Artifacts, c: Artifacts) {
    && (n > 0 ==> a.prd == c.prd)
    && (n > 1 ==> a.architecture == c.architecture)
    && (n > 2 ==> a.plan == c.plan)
    && (n > 3 ==> a.summaries == c.summaries)
    && (n > 4 ==> a.review == c.review)
    && (n > 6 ==> a.documentation == c.documentation)
  }

  lemma {:induction false} BodyKeepsEarlier(b: Bodies, resumeAt: Option<int>, i: nat, st: State)
    requires i < 8 && Allows(st.ctx.artifacts, StageAt(i))
    ensures SameFiles(i, RunBody(b, resumeAt, StageAt(i), st).disk, st.disk)
    ensures SameArtifacts(i, RunBody(b, resumeAt, StageAt(i), st).ctx.artifacts, st.ctx.artifacts)
  {
    hide Walk, ExecutionOrder, Serialized;
  }

  lemma {:induction false} LoadKeepsEarlier(i: nat, st: State)
    requires i < 8
    ensures LoadNode(StageAt(i), st).disk == st.disk
    ensures SameArtifacts(i, LoadNode(StageAt(i), st).ctx.artifacts, st.ctx.artifacts)
  {
    hide LoadSummaries;
  }

  lemma {:induction false} NodeKeepsEarlier(b: Bodies, resume: Option<Resume>, cancelled: nat -> bool, i: nat,
                                            st: State)
    requires i < 8
    ensures SameFiles(i, Visit(b, resume, cancelled, i, st).disk, st.disk)
    ensures SameArtifacts(i, Visit(b, resume, cancelled, i, st).ctx.artifacts, st.ctx.artifacts)
  {
    LoadKeepsEarlier(i, st);
    if Allows(st.ctx.artifacts, StageAt(i)) {
      BodyKeepsEarlier(b, if resume.Some? then resume.value.waveNumber else None, i,
                       st.(executed := st.executed + [StageAt(i)]));
    }
    hide RunBody, LoadNode, Allows;
  }

  /** Whatever a stage does, and however it ends, the files and the artifacts of earlier
      stages stay: a run that broke off leaves what a later resume will load. */
  lemma {:induction false} LaterStagesKeepEarlier(b: Bodies, resume: Option<Resume>, cancelled: nat -> bool,
                                                  start: State, k: nat, n: nat)
    requires k <= n <= 8
    ensures SameFiles(k, RunTo(b, resume, cancelled, start, n).disk, RunTo(b, resume, cancelled, start, k).disk)
    ensures SameArtifacts(k, RunTo(b, resume, cancelled, start, n).ctx.artifacts, RunTo(b, resume, cancelled, start, k).ctx.artifacts)
  {
    if k < n {
      LaterStagesKeepEarlier(b, resume, cancelled, start, k, n - 1);
      NodeKeepsEarlier(b, resume, cancelled, n - 1, RunTo(b, resume, cancelled, start, n - 1));
      hide Visit;
    }
  }

  // ---------- the loading half of a resume ----------

  /** Every stage before n has the file its loader reads. */
  predicate FilesPresent(n: nat, d: Disk) {
    && (n > 0 ==> LoadPrd(d).Some?)
    && (n > 1 ==> d.architecture.Some?)
    && (n > 2 ==> d.plan.Some?)
    && (n > 3 ==> AllOnDisk(d.plan.value, d.waves))
    && (n > 4 ==> d.review.Some?)
    && (n > 6 ==> d.documentation.Some?)
  }

  /** The artifacts when the first n stages were loaded. */
  function LoadedTo(n: nat, d: Disk, a: Artifacts): Artifacts
    requires FilesPresent(n, d)
  {
    Artifacts(
      if n > 0 then LoadPrd(d) else a.prd,
      if n > 1 then d.architecture else a.architecture,
      if n > 2 then d.plan else a.plan,
      if n > 3 then LoadSummaries(d.plan.value, d.waves) else a.summaries,
      if n > 4 then d.review else a.review,
      if n > 6 then d.documentation else a.documentation)
  }

  lemma {:induction false} LoadingStep(b: Bodies, resume: Resume, cancelled: nat -> bool, ctx: Context, d: Disk, i: nat)
    requires i < Index(resume.start) && FilesPresent(i + 1, d)
    ensures var st := State(Context(LoadedTo(i, d, ctx.artifacts), ctx.supabase), d, [], None);
            var after := Visit(b, Some(resume), cancelled, i, st);
            && after.executed == []
            && (if cancelled(2 * i) || cancelled(2 * i + 1) then after.failure == Some(Cancelled)
                else after == State(Context(LoadedTo(i + 1, d, ctx.artifacts), ctx.supabase), d, [], None))
  {
    assert !ShouldRun(Some(resume), StageAt(i)) by { assert Index(StageAt(i)) == i; }
    hide RunNode, LoadSummaries, AllOnDisk;
    LoadsFound(d);
  }

  lemma {:induction false} LoadsFound(d: Disk)
    ensures d.plan.Some? && AllOnDisk(d.plan.value, d.waves) ==> LoadSummaries(d.plan.value, d.waves).Some?
  {
  }

  lemma {:induction false} LoadingPhase(b: Bodies, resume: Resume, cancelled: nat -> bool, ctx: Context, d: Disk,
                                        n: nat)
    requires n <= Index(resume.start) && FilesPresent(n, d)
    ensures var st := RunTo(b, Some(resume), cancelled, Begin(ctx, d), n);
            && st.executed == []
            && (st.failure.None? || st.failure == Some(Cancelled))
            && (st.failure.None? ==> st == State(Context(LoadedTo(n, d, ctx.artifacts), ctx.supabase), d, [], None))
            && ((forall j: nat :: !cancelled(j)) ==> st.failure.None?)
  {
    if n > 0 {
      LoadingPhase(b, resume, cancelled, ctx, d, n - 1);
      LoadingStep(b, resume, cancelled, ctx, d, n - 1);
      hide Visit, LoadedTo;
    }
  }

  // ---------- the running half ----------

  predicate Filled(n: nat, a: Artifacts) {
    && (n > 0 ==> a.prd.Some?)
    && (n > 1 ==> a.architecture.Some?)
    && (n > 2 ==> a.plan.Some?)
    && (n > 3 ==> a.summaries.Some?)
    && (n > 4 ==> a.review.Some?)
    && (n > 6 ==> a.documentation.Some?)
  }

  predicate AssertFired(failure: Option<Failure>) {
    failure.Some? && (failure.value.InvariantViolated? || failure.value.FileMissing?)
  }

  lemma {:induction false} FilledAllows(a: Artifacts, i: nat)
    requires i < 8 && Filled(i, a)
    ensures Allows(a, StageAt(i))
  {
  }

  lemma {:induction false} BodyFills(b: Bodies, resumeAt: Option<int>, i: nat, st: State)
    requires i < 8 && st.failure.None? && Filled(i, st.ctx.artifacts) && Allows(st.ctx.artifacts, StageAt(i))
    ensures var after := RunBody(b, resumeAt, StageAt(i), st);
            && !AssertFired(after.failure) && after.executed == st.executed
            && (after.failure.None? ==> Filled(i + 1, after.ctx.artifacts))
  {
    hide Walk, ExecutionOrder, Serialized;
  }

  lemma {:induction false} RunningStep(b: Bodies, resume: Option<Resume>, cancelled: nat -> bool, i: nat, st: State)
    requires i < 8 && ShouldRun(resume, StageAt(i)) && st.failure.None? && Filled(i, st.ctx.artifacts)
    ensures var after := Visit(b, resume, cancelled, i, st);
            && !AssertFired(after.failure)
            && (after.executed == st.executed || after.executed == st.executed + [StageAt(i)])
            && (after.failure.None? ==> Filled(i + 1, after.ctx.artifacts) && after.executed == st.executed + [StageAt(i)])
  {
    FilledAllows(st.ctx.artifacts, i);
    var started := st.(executed := st.executed + [StageAt(i)]);
    BodyFills(b, if resume.Some? then resume.value.waveNumber else None, i, started);
    hide RunBody, LoadNode;
  }

  function StagesFrom(k: nat, n: nat): seq<StageId>
    requires n <= 8
  {
    if n <= k then [] else StagesFrom(k, n - 1) + [StageAt(n - 1)]
  }

  function StartIndex(resume: Option<Resume>): nat { if resume.Some? then Index(resume.value.start) else 0 }

  /** With the files of the earlier stages on disk no invariant check and no loader throws,
      whatever the stages do; stages before the start do not execute, and those from it on
      execute once each, in order, as far as the run gets. */
  lemma {:induction false} NoAssertFires(b: Bodies, resume: Option<Resume>, cancelled: nat -> bool, ctx: Context,
                                         d: Disk, n: nat)
    requires n <= 8 && FilesPresent(StartIndex(resume), d)
    ensures var st := RunTo(b, resume, cancelled, Begin(ctx, d), n);
            && !AssertFired(st.failure)
            && st.executed <= StagesFrom(StartIndex(resume), n)
            && (st.failure.None? ==> st.executed == StagesFrom(StartIndex(resume), n))
            && (st.failure.None? && StartIndex(resume) <= n ==> Filled(n, st.ctx.artifacts))
  {
    var k := StartIndex(resume);
    if n <= k && resume.Some? {
      LoadingPhase(b, resume.value, cancelled, ctx, d, n);
      LoadedFilled(n, d, ctx.artifacts);
    } else if n > 0 {
      RunToStep(b, resume, cancelled, Begin(ctx, d), n - 1);
      hide RunTo, Visit, FilesPresent, Filled, ShouldRun;
      NoAssertFires(b, resume, cancelled, ctx, d, n - 1);
      var st := RunTo(b, resume, cancelled, Begin(ctx, d), n - 1);
      if st.failure.None? {
        RunsBehindStart(resume, n - 1);
        RunningStep(b, resume, cancelled, n - 1, st);
      }
    }
  }

  lemma {:induction false} RunsBehindStart(resume: Option<Resume>, i: nat)
    requires StartIndex(resume) <= i < 8
    ensures ShouldRun(resume, StageAt(i))
  {
    assert Index(StageAt(i)) == i;
  }

  lemma {:induction false} LoadedFilled(n: nat, d: Disk, a: Artifacts)
    requires FilesPresent(n, d)
    ensures Filled(n, LoadedTo(n, d, a))
  {
  }

  // ---------- what an uninterrupted run leaves ----------

  /** Context and files of a run that finished its first n stages. The plan handed on is
      the serialized form of the plan on disk. */
  ghost predicate RanTo(b: Bodies, n: nat, ctx: Context, st: State) {
    var a := st.ctx.artifacts;
    && Filled(n, a)
    && (n > 0 ==> st.disk.prd == a.prd)
    && (n > 1 ==> st.disk.architecture == a.architecture)
    && (n > 2 ==> st.disk.plan.Some? && a.plan == Some(Serialized(st.disk.plan.value)))
    && (n > 3 ==> AllOnDisk(a.plan.value, st.disk.waves))
    && (n > 4 ==> st.disk.review == a.review)
    && (n > 6 ==> st.disk.documentation == a.documentation)
    && SameLater(n, a, ctx.artifacts)
    && st.ctx.supabase == (if n > 2 then Some(b.readiness.Some?) else ctx.supabase)
  }

  predicate SameLater(n: nat, a: Artifacts, c: Artifacts) {
    && (n <= 0 ==> a.prd == c.prd)
    && (n <= 1 ==> a.architecture == c.architecture)
    && (n <= 2 ==> a.plan == c.plan)
    && (n <= 3 ==> a.summaries == c.summaries)
    && (n <= 4 ==> a.review == c.review)
    && (n <= 6 ==> a.documentation == c.documentation)
  }

  lemma {:induction false} WalkLeavesFiles(body: WaveBody, plan: Plan, files: map<int, Summary>)
    requires Walk(body, ExecutionOrder(plan), Start(None, files), |ExecutionOrder(plan)|).error.None?
    ensures AllOnDisk(plan, Walk(body, ExecutionOrder(plan), Start(None, files), |ExecutionOrder(plan)|).files)
  {
    var order := ExecutionOrder(plan);
    FilesOfWalk(body, order, files, |order|);
    OrderVisitsAll(plan);
    Ordering.SamePermutation(order, plan);
    hide Walk, ExecutionOrder;
    forall i: nat | i < |plan| ensures NumberOf(plan[i]) in Walk(body, order, Start(None, files), |order|).files {
      assert plan[i] in plan;
      var at: nat :| at < |order| && order[at] == plan[i];
    }
  }

  lemma {:induction false} FullBody(b: Bodies, i: nat, ctx: Context, st: State)
    requires i < 8 && st.failure.None? && RanTo(b, i, ctx, st) && Allows(st.ctx.artifacts, StageAt(i))
    requires RunBody(b, None, StageAt(i), st).failure.None?
    ensures RanTo(b, i + 1, ctx, RunBody(b, None, StageAt(i), st))
  {
    if i == 3 {
      WalkLeavesFiles(b.wave(st.ctx.artifacts), st.ctx.artifacts.plan.value, st.disk.waves);
      FullExecution(b, ctx, st);
      hide RanTo, RunExecution, Walk, ExecutionOrder;
    } else if i == 2 {
      FullPlanning(b, ctx, st);
      hide RanTo, RunPlanning;
    } else if i < 2 {
      FullFirst(b, i, ctx, st);
      hide RanTo, RunBody, Allows;
    } else {
      FullLast(b, i, ctx, st);
      hide RanTo, RunBody, Allows;
    }
  }

  lemma {:induction false} FullFirst(b: Bodies, i: nat, ctx: Context, st: State)
    requires i < 2 && st.failure.None? && RanTo(b, i, ctx, st) && Allows(st.ctx.artifacts, StageAt(i))
    requires RunBody(b, None, StageAt(i), st).failure.None?
    ensures RanTo(b, i + 1, ctx, RunBody(b, None, StageAt(i), st))
  {
    hide RunPlanning, RunExecution, AllOnDisk, Serialized, Allows;
  }

  lemma {:induction false} FullLast(b: Bodies, i: nat, ctx: Context, st: State)
    requires 4 <= i < 8 && st.failure.None? && RanTo(b, i, ctx, st) && Allows(st.ctx.artifacts, StageAt(i))
    requires RunBody(b, None, StageAt(i), st).failure.None?
    ensures RanTo(b, i + 1, ctx, RunBody(b, None, StageAt(i), st))
  {
    hide RunPlanning, RunExecution, AllOnDisk, Serialized, Allows;
  }

  lemma {:induction false} FullExecution(b: Bodies, ctx: Context, st: State)
    requires st.failure.None? && RanTo(b, 3, ctx, st)
    requires var plan := st.ctx.artifacts.plan.value;
             Walk(b.wave(st.ctx.artifacts), ExecutionOrder(plan), Start(None, st.disk.waves), |ExecutionOrder(plan)|).error.None? ==>
             AllOnDisk(plan, Walk(b.wave(st.ctx.artifacts), ExecutionOrder(plan), Start(None, st.disk.waves), |ExecutionOrder(plan)|).files)
    requires RunExecution(b, None, st.ctx.artifacts.plan.value, st).failure.None?
    ensures RanTo(b, 4, ctx, RunExecution(b, None, st.ctx.artifacts.plan.value, st))
  {
    hide Walk, ExecutionOrder, AllOnDisk, Serialized;
  }

  lemma {:induction false} FullPlanning(b: Bodies, ctx: Context, st: State)
    requires st.failure.None? && RanTo(b, 2, ctx, st) && RunPlanning(b, st).failure.None?
    ensures RanTo(b, 3, ctx, RunPlanning(b, st))
  {
    hide Serialized;
  }

  lemma {:induction false} FullRun(b: Bodies, cancelled: nat -> bool, ctx: Context, d: Disk, n: nat)
    requires n <= 8 && RunTo(b, None, cancelled, Begin(ctx, d), n).failure.None?
    ensures RanTo(b, n, ctx, RunTo(b, None, cancelled, Begin(ctx, d), n))
    ensures RunTo(b, None, cancelled, Begin(ctx, d), n).executed == StagesFrom(0, n)
  {
    NoAssertFires(b, None, cancelled, ctx, d, n);
    if n > 0 {
      FullRun(b, cancelled, ctx, d, n - 1);
      var st := RunTo(b, None, cancelled, Begin(ctx, d), n - 1);
      var started := st.(executed := st.executed + [StageAt(n - 1)]);
      FilledAllows(st.ctx.artifacts, n - 1);
      assert RanTo(b, n - 1, ctx, started);
      hide RanTo, RunBody, Filled, Allows, LoadNode;
      FullBody(b, n - 1, ctx, started);
    }
  }

  /** The artifacts a stage was given: what the stages before it made, and the rest as the run
      found it. */
  ghost function Before(i: nat, a: Artifacts, c: Artifacts): Artifacts {
    Artifacts(
      if i > 0 then a.prd else c.prd,
      if i > 1 then a.architecture else c.architecture,
      if i > 2 then a.plan else c.plan,
      if i > 3 then a.summaries else c.summaries,
      if i > 4 then a.review else c.review,
      if i > 6 then a.documentation else c.documentation)
  }

  /** The summaries are those of the plan's waves in execution order. */
  ghost predicate SummariesOf(body: WaveBody, plan: Plan, summaries: seq<Summary>) {
    var order := ExecutionOrder(plan);
    && |summaries| == |order|
    && forall i :: 0 <= i < |order| ==>
         body(order[i].wave).Done? && summaries[i] == Summary(order[i].wave.id, body(order[i].wave).content)
  }

  /** Each of the first n stages was given what those before it made, and made what is in the
      context, or passed without making anything. */
  ghost predicate StagesMade(b: Bodies, n: nat, c: Artifacts, a: Artifacts, plan: Option<Plan>) {
    && (n > 0 ==> a.prd.Some? && b.requirements(Before(0, a, c)) == Accepted(a.prd.value))
    && (n > 1 ==> a.architecture.Some? && b.architecture(Before(1, a, c)) == Accepted(a.architecture.value))
    && (n > 2 ==> plan.Some? && b.planning(Before(2, a, c), b.readiness.Some?) == Accepted(plan.value))
    && (n > 3 ==> a.plan.Some? && a.summaries.Some? && (b.readiness.Some? ==> b.readiness.value(a.plan.value))
                  && SummariesOf(b.wave(Before(3, a, c)), a.plan.value, a.summaries.value))
    && (n > 4 ==> a.review.Some? && b.review(Before(4, a, c)) == Accepted(a.review.value))
    && (n > 5 ==> b.qa(Before(5, a, c)).None?)
    && (n > 6 ==> a.documentation.Some? && b.documentation(Before(6, a, c)) == Accepted(a.documentation.value))
    && (n > 7 ==> b.handoff(Before(7, a, c)).None?)
  }

  lemma {:induction false} ExecutionMakes(b: Bodies, plan: Plan, st: State)
    requires st.failure.None? && RunExecution(b, None, plan, st).failure.None?
    ensures b.readiness.Some? ==> b.readiness.value(plan)
    ensures var after := RunExecution(b, None, plan, st);
            && after.ctx.artifacts.summaries.Some? && after.disk.plan == st.disk.plan
            && SummariesOf(b.wave(st.ctx.artifacts), plan, after.ctx.artifacts.summaries.value)
            && after.ctx.artifacts == st.ctx.artifacts.(summaries := after.ctx.artifacts.summaries)
  {
    var body, order := b.wave(st.ctx.artifacts), ExecutionOrder(plan);
    WalkExecutesInOrder(body, order, st.disk.waves, |order|);
    hide Walk, ExecutionOrder;
  }

  /** One stage makes what it should from what it was given. */
  ghost predicate StageMade(b: Bodies, i: nat, c: Artifacts, a: Artifacts, plan: Option<Plan>)
    requires i < 8
  {
    var given := Before(i, a, c);
    match StageAt(i)
    case Requirements => a.prd.Some? && b.requirements(given) == Accepted(a.prd.value)
    case Architecture => a.architecture.Some? && b.architecture(given) == Accepted(a.architecture.value)
    case Planning => plan.Some? && b.planning(given, b.readiness.Some?) == Accepted(plan.value)
    case Execution =>
      && a.plan.Some? && a.summaries.Some? && (b.readiness.Some? ==> b.readiness.value(a.plan.value))
      && SummariesOf(b.wave(given), a.plan.value, a.summaries.value)
    case ProjectReview => a.review.Some? && b.review(given) == Accepted(a.review.value)
    case Qa => b.qa(given).None?
    case Documentation => a.documentation.Some? && b.documentation(given) == Accepted(a.documentation.value)
    case Handoff => b.handoff(given).None?
  }

  lemma {:induction false} BodyMakes(b: Bodies, i: nat, c: Artifacts, st: State)
    requires i < 8 && st.failure.None? && Allows(st.ctx.artifacts, StageAt(i))
    requires SameLater(i, st.ctx.artifacts, c) && RunBody(b, None, StageAt(i), st).failure.None?
    ensures var after := RunBody(b, None, StageAt(i), st);
            && StageMade(b, i, c, after.ctx.artifacts, after.disk.plan)
            && SameArtifacts(i, after.ctx.artifacts, st.ctx.artifacts) && (i > 2 ==> after.disk.plan == st.disk.plan)
  {
    if i == 3 {
      ExecutionMakes(b, st.ctx.artifacts.plan.value, st);
    }
    BodyKeepsEarlier(b, None, i, st);
    assert Before(i, RunBody(b, None, StageAt(i), st).ctx.artifacts, c) == st.ctx.artifacts by {
      hide RunBody, Allows;
    }
    hide Before, Walk, ExecutionOrder, Serialized, SummariesOf;
  }

  lemma {:induction false} OneMoreMade(b: Bodies, i: nat, c: Artifacts, a: Artifacts, plan: Option<Plan>, a': Artifacts,
                                       plan': Option<Plan>)
    requires i < 8 && StagesMade(b, i, c, a, plan) && StageMade(b, i, c, a', plan')
    requires SameArtifacts(i, a', a) && (i > 2 ==> plan' == plan)
    ensures StagesMade(b, i + 1, c, a', plan')
  {
    forall j: nat | j <= i ensures j < i ==> Before(j, a', c) == Before(j, a, c) {
    }
    hide Before, SummariesOf;
  }

  /** Where the artifacts of an uninterrupted run come from, stage by stage: each is what its
      stage made when it was given those of the stages before it. */
  lemma {:induction false} RunMakes(b: Bodies, cancelled: nat -> bool, ctx: Context, d: Disk, n: nat)
    requires n <= 8 && RunTo(b, None, cancelled, Begin(ctx, d), n).failure.None?
    ensures var st := RunTo(b, None, cancelled, Begin(ctx, d), n);
            StagesMade(b, n, ctx.artifacts, st.ctx.artifacts, st.disk.plan)
  {
    if n > 0 {
      PrefixSucceeds(b, None, cancelled, Begin(ctx, d), n - 1, n);
      RunMakes(b, cancelled, ctx, d, n - 1);
      FullRun(b, cancelled, ctx, d, n - 1);
      var st := RunTo(b, None, cancelled, Begin(ctx, d), n - 1);
      var started := st.(executed := st.executed + [StageAt(n - 1)]);
      FilledAllows(st.ctx.artifacts, n - 1);
      assert SameLater(n - 1, st.ctx.artifacts, ctx.artifacts);
      assert RunTo(b, None, cancelled, Begin(ctx, d), n) == RunBody(b, None, StageAt(n - 1), started) by {
        hide RanTo, RunBody, Allows, StagesMade;
      }
      hide RunTo, RanTo, RunBody, Allows, LoadNode, StagesMade, SameLater;
      BodyMakes(b, n - 1, ctx.artifacts, started);
      var after := RunBody(b, None, StageAt(n - 1), started);
      OneMoreMade(b, n - 1, ctx.artifacts, st.ctx.artifacts, st.disk.plan, after.ctx.artifacts, after.disk.plan);
    }
  }

  // ---------- how a run fails ----------

  /** What a stage that throws leaves: the artifacts as they were, and on disk the draft it
      wrote, if any. */
  ghost predicate LeavesDraft<T>(result: Drafted<T>, before: Option<T>, after: Option<T>) {
    result.Rejected? && after == (if result.draft.Some? then result.draft else before)
  }

  /** A stage throws exactly what its body throws; what it wrote stays, and the context is the
      one it was given. */
  lemma {:induction false} StageThrows(b: Bodies, resumeAt: Option<int>, s: StageId, st: State)
    requires st.failure.None? && Allows(st.ctx.artifacts, s) && s != Execution
    ensures var a, after := st.ctx.artifacts, RunBody(b, resumeAt, s, st);
            && (after.failure.Some? ==> after.ctx == st.ctx && after.failure.value.StageThrew? && after.failure.value.stage == s)
            && (forall e :: after.failure == Some(StageThrew(s, e)) <==>
                  match s
                  case Requirements => b.requirements(a).Rejected? && b.requirements(a).error == e
                  case Architecture => b.architecture(a).Rejected? && b.architecture(a).error == e
                  case Planning =>
                    b.planning(a, b.readiness.Some?).Rejected? && b.planning(a, b.readiness.Some?).error == e
                  case ProjectReview => b.review(a).Rejected? && b.review(a).error == e
                  case Qa => b.qa(a) == Some(e)
                  case Documentation => b.documentation(a).Rejected? && b.documentation(a).error == e
                  case Handoff => b.handoff(a) == Some(e)
                  case Execution => false)
            && (after.failure.Some? ==>
                  match s
                  case Requirements => LeavesDraft(b.requirements(a), st.disk.prd, after.disk.prd) && after.disk == st.disk.(prd := after.disk.prd)
                  case Architecture =>
                    LeavesDraft(b.architecture(a), st.disk.architecture, after.disk.architecture)
                    && after.disk == st.disk.(architecture := after.disk.architecture)
                  case Planning =>
                    LeavesDraft(b.planning(a, b.readiness.Some?), st.disk.plan, after.disk.plan) && after.disk == st.disk.(plan := after.disk.plan)
                  case ProjectReview => LeavesDraft(b.review(a), st.disk.review, after.disk.review) && after.disk == st.disk.(review := after.disk.review)
                  case Documentation =>
                    LeavesDraft(b.documentation(a), st.disk.documentation, after.disk.documentation)
                    && after.disk == st.disk.(documentation := after.disk.documentation)
                  case _ => after.disk == st.disk)
  {
    hide Serialized;
  }

  /** Execution with a hook that is not satisfied with the plan ends before its first wave:
      the run is not ready, and nothing on disk or in the context changed. */
  lemma {:induction false} UnreadyRunEnds(b: Bodies, resume: Option<Resume>, cancelled: nat -> bool, start: State,
                                          plan: Plan, n: nat)
    requires 4 <= n <= 8 && ShouldRun(resume, Execution) && !cancelled(6)
    requires RunTo(b, resume, cancelled, start, 3).failure.None?
             && Filled(3, RunTo(b, resume, cancelled, start, 3).ctx.artifacts)
    requires RunTo(b, resume, cancelled, start, 3).ctx.artifacts.plan == Some(plan)
    requires b.readiness.Some? && !b.readiness.value(plan)
    ensures var st, end := RunTo(b, resume, cancelled, start, 3), RunTo(b, resume, cancelled, start, n);
            end.failure == Some(NotReady) && end.disk == st.disk && end.ctx == st.ctx && end.executed == st.executed + [Execution]
  {
    var st := RunTo(b, resume, cancelled, start, 3);
    assert Allows(st.ctx.artifacts, Execution);
    assert StageAt(3) == Execution;
    assert Visit(b, resume, cancelled, 3, st).failure == Some(NotReady);
    RunToStep(b, resume, cancelled, start, 3);
    FailureStays(b, resume, cancelled, start, 4, n);
    hide RunTo, Allows, Filled;
  }

  /** Only a hook that is not satisfied makes a run not ready. */
  lemma {:induction false} NotReadyMeansUnsatisfied(b: Bodies, resume: Option<Resume>, cancelled: nat -> bool,
                                                    i: nat, st: State)
    requires i < 8 && st.failure.None? && Visit(b, resume, cancelled, i, st).failure == Some(NotReady)
    ensures i == 3 && st.ctx.artifacts.plan.Some? && b.readiness.Some?
            && !b.readiness.value(st.ctx.artifacts.plan.value)
  {
    hide Walk, ExecutionOrder, Serialized, LoadSummaries;
  }

  /** A cancellation seen before a stage keeps it from starting; one seen after it ends the
      run with what the stage made. */
  lemma {:induction false} CancellationStops(b: Bodies, resume: Option<Resume>, cancelled: nat -> bool, start: State,
                                             i: nat, n: nat)
    requires i < n <= 8 && RunTo(b, resume, cancelled, start, i).failure.None?
    ensures cancelled(2 * i) ==>
              RunTo(b, resume, cancelled, start, n) == RunTo(b, resume, cancelled, start, i).(failure := Some(Cancelled))
    ensures var after := Node(b, resume, StageAt(i), RunTo(b, resume, cancelled, start, i));
            && (!cancelled(2 * i) && after.failure.Some? ==> RunTo(b, resume, cancelled, start, n) == after)
            && (!cancelled(2 * i) && after.failure.None? && cancelled(2 * i + 1) ==>
                  RunTo(b, resume, cancelled, start, n) == after.(failure := Some(Cancelled)))
  {
    hide Node;
    RunStep(b, resume, cancelled, start, i, n);
  }

  /** In front of a stage the artifacts of the stages it builds on are demanded. */
  lemma {:induction false} ChecksFire(b: Bodies, resumeAt: Option<int>, s: StageId, st: State)
    requires st.failure.None?
    ensures var a := st.ctx.artifacts;
            RunNode(b, resumeAt, s, st).failure == Some(InvariantViolated(s)) <==>
              || (s !in {Requirements, Qa} && a.prd.None?)
              || (s in {Planning, Execution, ProjectReview, Documentation, Handoff} && a.architecture.None?)
              || (s in {Execution, ProjectReview, Documentation, Handoff} && a.plan.None?)
              || (s in {ProjectReview, Documentation, Handoff} && a.summaries.None?)
              || (s in {Documentation, Handoff} && a.review.None?)
              || (s == Handoff && a.documentation.None?)
  {
    hide Walk, ExecutionOrder, Serialized;
  }

  /** A resume gets past loading exactly if every file it needs is there; otherwise it ends at
      the first stage whose file is missing, and no stage has executed. */
  lemma {:induction false} ResumeNeedsTheFiles(b: Bodies, resume: Resume, cancelled: nat -> bool, ctx: Context, d: Disk,
                                               i: nat, n: nat)
    requires i < Index(resume.start) && i < n <= 8 && forall j: nat :: !cancelled(j)
    requires FilesPresent(i, d) && !FilesPresent(i + 1, d)
    ensures var st := RunTo(b, Some(resume), cancelled, Begin(ctx, d), n);
            st.failure == Some(FileMissing(StageAt(i))) && st.executed == [] && st.disk == d
  {
    LoadingPhase(b, resume, cancelled, ctx, d, i);
    var st := RunTo(b, Some(resume), cancelled, Begin(ctx, d), i);
    assert st == State(Context(LoadedTo(i, d, ctx.artifacts), ctx.supabase), d, [], None);
    assert !ShouldRun(Some(resume), StageAt(i)) by { assert Index(StageAt(i)) == i; }
    hide RunTo;
    MissingFileFails(b, resume, cancelled, ctx, d, i);
    RunStep(b, Some(resume), cancelled, Begin(ctx, d), i, n);
  }

  lemma {:induction false} MissingFileFails(b: Bodies, resume: Resume, cancelled: nat -> bool, ctx: Context, d: Disk,
                                            i: nat)
    requires i < Index(resume.start) && FilesPresent(i, d) && !FilesPresent(i + 1, d) && !cancelled(2 * i)
    ensures var st := State(Context(LoadedTo(i, d, ctx.artifacts), ctx.supabase), d, [], None);
            var after := Visit(b, Some(resume), cancelled, i, st);
            after.failure == Some(FileMissing(StageAt(i))) && after.executed == [] && after.disk == d
  {
    assert !ShouldRun(Some(resume), StageAt(i)) by { assert Index(StageAt(i)) == i; }
    hide RunNode;
  }

  // ---------- when the loaded artifacts are those of the run ----------

  /** No wave of the plan loses its parallel flag. */
  ghost predicate KeepsFlags(plan: Plan) {
    forall i :: 0 <= i < |plan| ==> !P.LosesFlag(plan[i].wave)
  }

  lemma {:induction false} SerializedIsSame(plan: Plan)
    ensures Serialized(plan) == plan <==> KeepsFlags(plan)
  {
    if Serialized(plan) == plan {
      forall i | 0 <= i < |plan| ensures !P.LosesFlag(plan[i].wave) {
        assert Serialized(plan)[i] == plan[i];
      }
    }
  }

  lemma {:induction false} SerializedKeepsNumbers(plan: Plan, files: map<int, Summary>)
    ensures LoadSummaries(Serialized(plan), files) == LoadSummaries(plan, files)
  {
    forall i | 0 <= i < |plan| ensures NumberOf(Serialized(plan)[i]) == NumberOf(plan[i]) {}
    SamePlacesOnDisk(plan, files);
    if AllOnDisk(plan, files) {
      assert LoadSummaries(Serialized(plan), files).value == LoadSummaries(plan, files).value;
    }
  }

  /** What has to hold of the files for a resume at stage k to see what the run saw: no
      project PRD of a prepared import differs from the one the run wrote, the written
      plan had no unsafe parallel wave, and the summaries reload in order. */
  ghost predicate Faithful(k: nat, a: Artifacts, d: Disk) {
    && (k > 0 ==> d.scopedPrd.None? || d.scopedPrd == d.prd)
    && (k > 2 ==> d.plan.Some? && KeepsFlags(d.plan.value))
    && (k > 3 ==> a.plan.Some? && LoadSummaries(a.plan.value, d.waves) == a.summaries)
  }

  lemma {:induction false} LoadedIsRun(b: Bodies, k: nat, ctx: Context, st: State, d: Disk)
    requires RanTo(b, k, ctx, st) && SameFiles(k, d, st.disk)
    ensures FilesPresent(k, d)
    ensures SameArtifacts(k, LoadedTo(k, d, ctx.artifacts), st.ctx.artifacts) <==> Faithful(k, st.ctx.artifacts, d)
    ensures SameLater(k, LoadedTo(k, d, ctx.artifacts), st.ctx.artifacts)
  {
    if k > 2 {
      SerializedIsSame(d.plan.value);
      SerializedKeepsNumbers(d.plan.value, d.waves);
    }
    if k > 3 {
      SamePlacesOnDisk(d.plan.value, d.waves);
    }
    hide LoadSummaries, Serialized, KeepsFlags, AllOnDisk;
  }

  lemma {:induction false} SamePlacesOnDisk(plan: Plan, files: map<int, Summary>)
    ensures AllOnDisk(Serialized(plan), files) <==> AllOnDisk(plan, files)
    ensures LoadSummaries(plan, files).Some? <==> AllOnDisk(plan, files)
  {
    forall i | 0 <= i < |plan| ensures NumberOf(Serialized(plan)[i]) == NumberOf(plan[i]) {}
  }

  lemma {:induction false} ArtifactsAreAll(k: nat, a: Artifacts, c: Artifacts)
    ensures a == c <==> SameArtifacts(k, a, c) && SameLater(k, a, c)
  {
  }

  // ---------- from the start stage on ----------

  /** A resume that names a wave starts in the execution stage, and each wave it skips
      left its own summary. */
  ghost predicate WaveReady(b: Bodies, resume: Resume, a: Artifacts, d: Disk) {
    resume.waveNumber.Some? ==>
      && resume.start == Execution && a.plan.Some?
      && Checkpointed(b.wave(a), ExecutionOrder(a.plan.value), resume.waveNumber.value, d.waves)
  }

  lemma {:induction false} WalkIgnoresFiles(body: WaveBody, order: Plan, d: map<int, Summary>, e: map<int, Summary>,
                                            n: nat)
    requires n <= |order|
    ensures var p, q := Walk(body, order, Start(None, d), n), Walk(body, order, Start(None, e), n);
            && p.error == q.error && p.summaries == q.summaries && p.completed == q.completed
            && (p.error.None? ==> p.resume.None? && q.resume.None?)
  {
    if n > 0 {
      WalkIgnoresFiles(body, order, d, e, n - 1);
    }
  }

  lemma {:induction false} ExecutionAgrees(b: Bodies, resume: Resume, plan: Plan, u: State, r: State)
    requires u.failure.None? && r.failure.None? && r.ctx.artifacts == u.ctx.artifacts
    requires u.ctx.artifacts.plan == Some(plan) && WaveReady(b, resume, u.ctx.artifacts, r.disk)
    requires RunExecution(b, None, plan, u).failure.None?
    ensures var s, t := RunExecution(b, None, plan, u), RunExecution(b, resume.waveNumber, plan, r);
            t.failure.None? && t.ctx.artifacts == s.ctx.artifacts
  {
    var body, order := b.wave(u.ctx.artifacts), ExecutionOrder(plan);
    if resume.waveNumber.None? {
      WalkIgnoresFiles(body, order, u.disk.waves, r.disk.waves, |order|);
    } else {
      var f := FirstNumbered(order, resume.waveNumber.value);
      if Walk(body, order, Start(None, u.disk.waves), f).error.Some? {
        FailedStays(body, order, Start(None, u.disk.waves), f, |order|);
      }
      ResumedWalkRefinesFull(body, order, resume.waveNumber.value, u.disk.waves, r.disk.waves);
    }
  }

  lemma {:induction false} BodyAgrees(b: Bodies, resume: Resume, i: nat, u: State, r: State)
    requires i < 8 && u.failure.None? && r.failure.None? && r.ctx.artifacts == u.ctx.artifacts
    requires Allows(u.ctx.artifacts, StageAt(i)) && (i == 3 ==> WaveReady(b, resume, u.ctx.artifacts, r.disk))
    requires RunBody(b, None, StageAt(i), u).failure.None?
    ensures var s, t := RunBody(b, None, StageAt(i), u), RunBody(b, resume.waveNumber, StageAt(i), r);
            t.failure.None? && t.ctx.artifacts == s.ctx.artifacts
    ensures var t := RunBody(b, resume.waveNumber, StageAt(i), r);
            t.ctx.supabase == (if i == 2 then Some(b.readiness.Some?) else r.ctx.supabase)
  {
    if i == 3 {
      ExecutionAgrees(b, resume, u.ctx.artifacts.plan.value, u, r);
    }
    hide Walk, ExecutionOrder, Serialized, WaveReady;
  }

  lemma {:induction false} VisitAgrees(b: Bodies, resume: Resume, before: nat -> bool, now: nat -> bool, i: nat,
                                       u: State, r: State)
    requires Index(resume.start) <= i < 8 && u.failure.None? && r.failure.None? && r.ctx.artifacts == u.ctx.artifacts
    requires Filled(i, u.ctx.artifacts) && (i == 3 ==> WaveReady(b, resume, u.ctx.artifacts, r.disk))
    requires Visit(b, None, before, i, u).failure.None? && forall j: nat :: !now(j)
    ensures var s, t := Visit(b, None, before, i, u), Visit(b, Some(resume), now, i, r);
            && t.failure.None? && t.ctx.artifacts == s.ctx.artifacts
            && t.ctx.supabase == (if i == 2 then Some(b.readiness.Some?) else r.ctx.supabase)
  {
    FilledAllows(u.ctx.artifacts, i);
    assert ShouldRun(Some(resume), StageAt(i)) by { assert Index(StageAt(i)) == i; }
    BodyAgrees(b, resume, i, u.(executed := u.executed + [StageAt(i)]), r.(executed := r.executed + [StageAt(i)]));
    hide RunBody, LoadNode, Filled, Allows;
  }

  /** The full run u and the resumed run r before node n: same artifacts, neither failed. */
  ghost predicate Aligned(b: Bodies, resume: Resume, loaded: Option<bool>, n: nat, u: State, r: State) {
    && u.failure.None? && r.failure.None? && r.ctx.artifacts == u.ctx.artifacts
    && r.ctx.supabase == (if Index(resume.start) <= 2 < n then Some(b.readiness.Some?) else loaded)
    && (n <= 3 ==> WaveReady(b, resume, u.ctx.artifacts, r.disk))
  }

  lemma {:induction false} AlignedStep(b: Bodies, resume: Resume, loaded: Option<bool>, before: nat -> bool,
                                       now: nat -> bool, n: nat, u: State, r: State)
    requires Index(resume.start) <= n < 8 && Aligned(b, resume, loaded, n, u, r) && Filled(n, u.ctx.artifacts)
    requires Visit(b, None, before, n, u).failure.None? && forall j: nat :: !now(j)
    ensures Aligned(b, resume, loaded, n + 1, Visit(b, None, before, n, u), Visit(b, Some(resume), now, n, r))
  {
    hide Visit, Filled;
    VisitAgrees(b, resume, before, now, n, u, r);
    if n < 3 {
      NoWaveNamed(b, resume, Visit(b, None, before, n, u).ctx.artifacts, Visit(b, Some(resume), now, n, r).disk,
                  u.ctx.artifacts, r.disk);
    }
    hide WaveReady;
  }

  lemma {:induction false} RunsAgree(b: Bodies, resume: Resume, loaded: Option<bool>, before: nat -> bool,
                                     now: nat -> bool, start: State, again: State, n: nat)
    requires Index(resume.start) <= n <= 8 && forall j: nat :: !now(j)
    requires start.ctx == again.ctx && start == Begin(start.ctx, start.disk)
    requires RunTo(b, None, before, start, n).failure.None?
    requires Aligned(b, resume, loaded, Index(resume.start), RunTo(b, None, before, start, Index(resume.start)), RunTo(b, Some(resume), now, again, Index(resume.start)))
    ensures Aligned(b, resume, loaded, n, RunTo(b, None, before, start, n), RunTo(b, Some(resume), now, again, n))
  {
    if n > Index(resume.start) {
      RunToStep(b, None, before, start, n - 1);
      RunToStep(b, Some(resume), now, again, n - 1);
      NoAssertFires(b, None, before, start.ctx, start.disk, n - 1);
      hide RunTo, Visit, Filled;
      RunsAgree(b, resume, loaded, before, now, start, again, n - 1);
      var u, r := RunTo(b, None, before, start, n - 1), RunTo(b, Some(resume), now, again, n - 1);
      assert u.failure.None? && r.failure.None?;
      hide Aligned;
      AlignedStep(b, resume, loaded, before, now, n - 1, u, r);
    }
  }

  lemma {:induction false} NoWaveNamed(b: Bodies, resume: Resume, a: Artifacts, d: Disk, a': Artifacts, d': Disk)
    requires WaveReady(b, resume, a', d') && resume.start != Execution
    ensures WaveReady(b, resume, a, d)
  {
  }

  lemma {:induction false} RunToStep(b: Bodies, resume: Option<Resume>, cancelled: nat -> bool, start: State, n: nat)
    requires n < 8
    ensures var st := RunTo(b, resume, cancelled, start, n);
            RunTo(b, resume, cancelled, start, n + 1) == if st.failure.Some? then st else Visit(b, resume, cancelled, n, st)
  {
    hide Visit;
  }

  /** Resume refines the run. A resume at any stage, on any disk that still holds what the
      run left of the earlier stages, stands after any later stage n with the artifacts of
      the uninterrupted run exactly when those files are faithful. */
  lemma {:induction false} ResumeRefinesTheRun(b: Bodies, resume: Resume, before: nat -> bool, now: nat -> bool,
                                               ctx: Context, d0: Disk, d: Disk, n: nat)
    requires Index(resume.start) <= n <= 8 && forall j: nat :: !now(j)
    requires RunTo(b, None, before, Begin(ctx, d0), n).failure.None?
    requires SameFiles(Index(resume.start), d, RunTo(b, None, before, Begin(ctx, d0), Index(resume.start)).disk)
    requires WaveReady(b, resume, RunTo(b, None, before, Begin(ctx, d0), Index(resume.start)).ctx.artifacts, d)
    ensures var k := Index(resume.start);
            var full := RunTo(b, None, before, Begin(ctx, d0), n);
            var resumed := RunTo(b, Some(resume), now, Begin(ctx, d), n);
            && (Faithful(k, full.ctx.artifacts, d) <==> resumed.failure.None? && resumed.ctx.artifacts == full.ctx.artifacts)
            && (Faithful(k, full.ctx.artifacts, d) ==> resumed.executed == StagesFrom(k, n))
  {
    var k := Index(resume.start);
    var start := Begin(ctx, d0);
    var full, resumed := RunTo(b, None, before, start, n), RunTo(b, Some(resume), now, Begin(ctx, d), n);
    var u, r := RunTo(b, None, before, start, k), RunTo(b, Some(resume), now, Begin(ctx, d), k);
    PrefixSucceeds(b, None, before, start, k, n);
    FullRun(b, before, ctx, d0, k);
    LoadedIsRun(b, k, ctx, u, d);
    LoadingPhase(b, resume, now, ctx, d, k);
    LaterStagesKeepEarlier(b, None, before, start, k, n);
    LaterStagesKeepEarlier(b, Some(resume), now, Begin(ctx, d), k, n);
    ArtifactsAreAll(k, r.ctx.artifacts, u.ctx.artifacts);
    NoAssertFires(b, Some(resume), now, ctx, d, n);
    FaithfulStays(k, u.ctx.artifacts, full.ctx.artifacts, d);
    hide RunTo, FilesPresent, LoadedTo, RanTo, SameFiles, WaveReady;
    if Faithful(k, u.ctx.artifacts, d) {
      RunsAgree(b, resume, ctx.supabase, before, now, start, Begin(ctx, d), n);
    }
  }

  /** A run that goes wrong at stage k or later, in whatever way, leaves a disk on which a
      resume at stage k does what an uninterrupted run would have done. */
  lemma {:induction false} ResumeAfterFailure(b: Bodies, broken: Bodies, resume: Resume, before: nat -> bool,
                                              stopped: nat -> bool, now: nat -> bool,
                           ctx: Context, d0: Disk, m: nat, n: nat)
    requires Index(resume.start) <= n <= 8 && Index(resume.start) <= m <= 8 && forall j: nat :: !now(j)
    requires RunTo(b, None, before, Begin(ctx, d0), n).failure.None?
    requires var k := Index(resume.start);
             RunTo(broken, None, stopped, Begin(ctx, d0), k) == RunTo(b, None, before, Begin(ctx, d0), k)
    requires WaveReady(b, resume, RunTo(b, None, before, Begin(ctx, d0), Index(resume.start)).ctx.artifacts,
                       RunTo(broken, None, stopped, Begin(ctx, d0), m).disk)
    ensures var full, d := RunTo(b, None, before, Begin(ctx, d0), n), RunTo(broken, None, stopped, Begin(ctx, d0), m).disk;
            var resumed := RunTo(b, Some(resume), now, Begin(ctx, d), n);
            && (Faithful(Index(resume.start), full.ctx.artifacts, d) <==> resumed.failure.None? && resumed.ctx.artifacts == full.ctx.artifacts)
  {
    LaterStagesKeepEarlier(broken, None, stopped, Begin(ctx, d0), Index(resume.start), m);
    hide RunTo, Faithful, WaveReady, SameArtifacts;
    ResumeRefinesTheRun(b, resume, before, now, ctx, d0, RunTo(broken, None, stopped, Begin(ctx, d0), m).disk, n);
  }

  /** An execution that fails in its g-th wave leaves the checkpoints for a resume at that
      wave's number exactly when no wave before it shares the number of an earlier one that
      the resume skips. */
  lemma {:induction false} WaveReadyAfterFailure(b: Bodies, broken: Bodies, g: nat, plan: Plan, st: State)
    requires st.ctx.artifacts.plan == Some(plan) && (broken.readiness.None? || broken.readiness.value(plan))
    requires var order := ExecutionOrder(plan);
             && DistinctIds(order) && g < |order|
             && BreaksAt(b.wave(st.ctx.artifacts), broken.wave(st.ctx.artifacts), order, g, st.disk.waves)
    ensures var order := ExecutionOrder(plan);
            WaveReady(b, Resume(Execution, Some(NumberOf(order[g]))), st.ctx.artifacts, RunExecution(broken, None, plan, st).disk)
            <==> SkippedApart(order, NumberOf(order[g]), g)
  {
    hide Walk, ExecutionOrder, FirstNumbered, Checkpointed, BreaksAt, SkippedApart;
    BrokenWalkCheckpoints(b.wave(st.ctx.artifacts), broken.wave(st.ctx.artifacts), ExecutionOrder(plan), g,
                          st.disk.waves);
  }

  lemma {:induction false} FaithfulStays(k: nat, a: Artifacts, c: Artifacts, d: Disk)
    requires SameArtifacts(k, c, a)
    ensures Faithful(k, a, d) <==> Faithful(k, c, d)
  {
  }

  lemma {:induction false} PrefixSucceeds(b: Bodies, resume: Option<Resume>, cancelled: nat -> bool, start: State,
                                          k: nat, n: nat)
    requires k <= n <= 8 && RunTo(b, resume, cancelled, start, n).failure.None?
    ensures RunTo(b, resume, cancelled, start, k).failure.None?
  {
    if k < n {
      hide Visit;
      PrefixSucceeds(b, resume, cancelled, start, k, n - 1);
    }
  }

  // ---------- where the resumed run differs ----------

  /** The `configured` flag is set by executing the planning stage only: behind it a resumed
      context has the flag only if it started with it. */
  lemma {:induction false} SupabaseFlagOnResume(b: Bodies, resume: Resume, before: nat -> bool, now: nat -> bool,
                                                ctx: Context, d0: Disk, d: Disk, n: nat)
    requires Index(resume.start) <= n <= 8 && forall j: nat :: !now(j)
    requires RunTo(b, None, before, Begin(ctx, d0), n).failure.None?
    requires SameFiles(Index(resume.start), d, RunTo(b, None, before, Begin(ctx, d0), Index(resume.start)).disk)
    requires WaveReady(b, resume, RunTo(b, None, before, Begin(ctx, d0), Index(resume.start)).ctx.artifacts, d)
    requires Faithful(Index(resume.start), RunTo(b, None, before, Begin(ctx, d0), n).ctx.artifacts, d)
    ensures RunTo(b, Some(resume), now, Begin(ctx, d), n).ctx == RunTo(b, None, before, Begin(ctx, d0), n).ctx
       <==> Index(resume.start) <= 2 || ctx.supabase == Some(b.readiness.Some?)
  {
    var k := Index(resume.start);
    var start := Begin(ctx, d0);
    PrefixSucceeds(b, None, before, start, k, n);
    FullRun(b, before, ctx, d0, k);
    FullRun(b, before, ctx, d0, n);
    var u, r := RunTo(b, None, before, start, k), RunTo(b, Some(resume), now, Begin(ctx, d), k);
    LoadedIsRun(b, k, ctx, u, d);
    LoadingPhase(b, resume, now, ctx, d, k);
    LaterStagesKeepEarlier(b, None, before, start, k, n);
    ArtifactsAreAll(k, r.ctx.artifacts, u.ctx.artifacts);
    FaithfulStays(k, u.ctx.artifacts, RunTo(b, None, before, start, n).ctx.artifacts, d);
    hide RunTo, FilesPresent, LoadedTo, SameFiles, WaveReady, Faithful;
    RunsAgree(b, resume, ctx.supabase, before, now, start, Begin(ctx, d), n);
  }

  /** The plan file is written before unsafe waves lose their parallel flag, so a resume
      behind the planning stage hands them on as parallel again. */
  lemma {:induction false} ParallelFlagComesBack(b: Bodies, resume: Resume, before: nat -> bool, now: nat -> bool,
                                                 ctx: Context, d0: Disk, d: Disk, i: nat)
    requires var k := Index(resume.start);
             && k > 2 && RunTo(b, None, before, Begin(ctx, d0), k).failure.None? && (forall j: nat :: !now(j))
             && SameFiles(k, d, RunTo(b, None, before, Begin(ctx, d0), k).disk)
    requires d.plan.Some? && i < |d.plan.value| && P.LosesFlag(d.plan.value[i].wave)
    ensures var k := Index(resume.start);
            var ran, loaded := RunTo(b, None, before, Begin(ctx, d0), k).ctx.artifacts.plan, RunTo(b, Some(resume), now, Begin(ctx, d), k).ctx.artifacts.plan;
            && ran.Some? && loaded.Some? && i < |ran.value| && i < |loaded.value|
            && loaded.value[i].wave.parallel && !ran.value[i].wave.parallel
  {
    var k := Index(resume.start);
    FullRun(b, before, ctx, d0, k);
    LoadedIsRun(b, k, ctx, RunTo(b, None, before, Begin(ctx, d0), k), d);
    LoadingPhase(b, resume, now, ctx, d, k);
    hide RunTo, FilesPresent;
  }

  /** Such a wave: two stories that declare no files, planned as parallel. */
  lemma {:induction false} SomeWaveLosesItsFlag(id: string, s: P.StoryId, t: P.StoryId)
    ensures P.LosesFlag(P.Wave(id, 1, P.Feature, [P.Story(s, None), P.Story(t, None)], true))
  {
    assert P.DeclaresNothing([P.Story(s, None), P.Story(t, None)][0]);
  }

  /** With unique wave ids the summaries reload as returned exactly when the plan lists its
      waves in execution order and numbers them apart. */
  lemma {:induction false} SummariesReloadOnResume(b: Bodies, before: nat -> bool, ctx: Context, d0: Disk, plan: Plan)
    requires RunTo(b, None, before, Begin(ctx, d0), 4).failure.None?
    requires RunTo(b, None, before, Begin(ctx, d0), 4).ctx.artifacts.plan == Some(plan) && DistinctIds(plan)
    ensures var st := RunTo(b, None, before, Begin(ctx, d0), 4);
            LoadSummaries(plan, st.disk.waves) == st.ctx.artifacts.summaries <==> ExecutionOrder(plan) == plan && DistinctNumbers(plan)
  {
    var st := RunTo(b, None, before, Begin(ctx, d0), 3);
    FullRun(b, before, ctx, d0, 3);
    FilledAllows(st.ctx.artifacts, 3);
    assert RunTo(b, None, before, Begin(ctx, d0), 4) == Visit(b, None, before, 3, st);
    hide RunTo, RanTo, LoadSummaries, Walk, ExecutionOrder, LoadNode;
    SummariesReloadInOrder(b.wave(st.ctx.artifacts), plan, st.disk.waves);
  }

  /** The same condition in terms of the files alone: no project PRD of a prepared import
      differs from `prd.json`, no wave of the plan file is unsafely parallel, and, once
      execution is skipped, the plan file lists its waves in execution order and numbers
      them apart. */
  ghost predicate PlainlyFaithful(k: nat, d: Disk) {
    && (k > 0 ==> d.scopedPrd.None? || d.scopedPrd == d.prd)
    && (k > 2 ==> d.plan.Some? && KeepsFlags(d.plan.value))
    && (k > 3 ==> ExecutionOrder(d.plan.value) == d.plan.value && DistinctNumbers(d.plan.value))
  }

  lemma {:induction false} FaithfulPlainly(b: Bodies, before: nat -> bool, ctx: Context, d0: Disk, d: Disk, k: nat)
    requires k <= 8 && RunTo(b, None, before, Begin(ctx, d0), k).failure.None?
    requires SameFiles(k, d, RunTo(b, None, before, Begin(ctx, d0), k).disk)
    requires k > 3 && d.plan.Some? ==> DistinctIds(d.plan.value)
    ensures Faithful(k, RunTo(b, None, before, Begin(ctx, d0), k).ctx.artifacts, d) <==> PlainlyFaithful(k, d)
  {
    FullRun(b, before, ctx, d0, k);
    if k > 3 && KeepsFlags(d.plan.value) {
      SerializedIsSame(d.plan.value);
      PrefixSucceeds(b, None, before, Begin(ctx, d0), 4, k);
      LaterStagesKeepEarlier(b, None, before, Begin(ctx, d0), 4, k);
      hide RunTo, KeepsFlags, Serialized, ExecutionOrder, LoadSummaries, DistinctNumbers;
      SummariesReloadOnResume(b, before, ctx, d0, d.plan.value);
    } else {
      hide RunTo, KeepsFlags, Serialized, ExecutionOrder, LoadSummaries, DistinctNumbers;
    }
  }

  /** Resume refines the run, by a condition that can be read off the files before the
      resume. */
  lemma {:induction false} ResumeRefinesPlainly(b: Bodies, resume: Resume, before: nat -> bool, now: nat -> bool,
                                                ctx: Context, d0: Disk, d: Disk, n: nat)
    requires Index(resume.start) <= n <= 8 && forall j: nat :: !now(j)
    requires RunTo(b, None, before, Begin(ctx, d0), n).failure.None?
    requires SameFiles(Index(resume.start), d, RunTo(b, None, before, Begin(ctx, d0), Index(resume.start)).disk)
    requires WaveReady(b, resume, RunTo(b, None, before, Begin(ctx, d0), Index(resume.start)).ctx.artifacts, d)
    requires Index(resume.start) > 3 && d.plan.Some? ==> DistinctIds(d.plan.value)
    ensures var full, resumed := RunTo(b, None, before, Begin(ctx, d0), n), RunTo(b, Some(resume), now, Begin(ctx, d), n);
            PlainlyFaithful(Index(resume.start), d) <==> resumed.failure.None? && resumed.ctx.artifacts == full.ctx.artifacts
  {
    var k := Index(resume.start);
    PrefixSucceeds(b, None, before, Begin(ctx, d0), k, n);
    LaterStagesKeepEarlier(b, None, before, Begin(ctx, d0), k, n);
    FaithfulPlainly(b, before, ctx, d0, d, k);
    FaithfulStays(k, RunTo(b, None, before, Begin(ctx, d0), k).ctx.artifacts,
                  RunTo(b, None, before, Begin(ctx, d0), n).ctx.artifacts, d);
    hide RunTo, Faithful, PlainlyFaithful, SameFiles, WaveReady;
    ResumeRefinesTheRun(b, resume, before, now, ctx, d0, d, n);
  }

  /** A run in a directory where an import left a PRD: its own stages see the one it wrote,
      a resume behind requirements sees the imported one. */
  lemma {:induction false} ImportedPrdComesBack(b: Bodies, ctx: Context, imported: Prd, written: Prd)
    requires b.requirements(ctx.artifacts) == Accepted(written)
    ensures var d0, never := Disk(Some(imported), None, None, None, map[], None, None), (i: nat) => false;
            var full := RunTo(b, None, never, Begin(ctx, d0), 1);
            var resumed := RunTo(b, Some(Resume(Architecture, None)), never, Begin(ctx, full.disk), 1);
            && full.failure.None? && full.ctx.artifacts.prd == Some(written)
            && resumed.failure.None? && resumed.ctx.artifacts.prd == Some(imported)
  {
    var d0, never := Disk(Some(imported), None, None, None, map[], None, None), (i: nat) => false;
    var start := Begin(ctx, d0);
    assert RunTo(b, None, never, start, 1) == Visit(b, None, never, 0, start);
    var disk := RunTo(b, None, never, start, 1).disk;
    assert disk == d0.(prd := Some(written));
    var again := Begin(ctx, disk);
    var resume := Some(Resume(Architecture, None));
    assert RunTo(b, resume, never, again, 1) == Visit(b, resume, never, 0, again);
  }

  // ---------- the pipeline in place ----------

  /** The parallelism pass on the plan's own wave objects. */
  method SerializeWaves(plan: Plan, collate: P.FileName -> int) returns (serialized: Plan)
    ensures serialized == Serialized(plan)
  {
    var objects: seq<P.WaveObject> := [];
    for i := 0 to |plan|
      invariant |objects| == i && Ordering.NoDuplicates(objects) && fresh(objects)
      invariant forall j :: 0 <= j < i ==> objects[j].Value() == plan[j].wave
    {
      var planned := new P.WaveObject(plan[i].wave);
      objects := objects + [planned];
    }
    ghost var before := P.Values(objects);
    var decisions := P.EnforceWaveParallelism(objects, collate);
    assert forall j :: 0 <= j < |plan| ==> before[j] == plan[j].wave && P.Values(objects)[j] == P.Enforced(before[j]);
    serialized := seq(|plan|, i requires 0 <= i < |plan| reads objects => plan[i].(wave := objects[i].Value()));
  }

  class ProjectFiles {
    var scopedPrd: Option<Prd>
    var prd: Option<Prd>
    var architecture: Option<Design>
    var plan: Option<Plan>
    var review: Option<Review>
    var documentation: Option<Docs>
    const waves: WaveStore

    constructor (d: Disk)
      ensures Value() == d && fresh(waves)
    {
      scopedPrd, prd, architecture, plan, review, documentation := d.scopedPrd, d.prd, d.architecture, d.plan, d.review, d.documentation;
      waves := new WaveStore(d.waves);
    }

    function Value(): Disk
      reads this, waves
    {
      Disk(scopedPrd, prd, architecture, plan, waves.files, review, documentation)
    }

    /** The planning stage: write the plan file, then serialize the plan in memory. */
    method RunPlanningStage(b: Bodies, ctx: Context, collate: P.FileName -> int)
      returns (out: Outcome<Context, Failure>)
      modifies this
      ensures var st := RunPlanning(b, State(ctx, old(Value()), [], None));
              && Value() == st.disk && waves.files == old(waves.files)
              && out == (if st.failure.Some? then Thrown(st.failure.value) else Ok(st.ctx))
    {
      var configured := b.readiness.Some?;
      var result := b.planning(ctx.artifacts, configured);
      plan := Draft(result, plan);
      if result.Rejected? { return Thrown(StageThrew(Planning, result.error)); }
      var serialized := SerializeWaves(result.value, collate);
      out := Ok(Context(ctx.artifacts.(plan := Some(serialized)), Some(configured)));
    }

    /** The execution stage behind its readiness check. */
    method RunExecutionStage(b: Bodies, resumeAt: Option<int>, planned: Plan, ctx: Context)
      returns (out: Outcome<Context, Failure>)
      modifies waves
      ensures var st := RunExecution(b, resumeAt, planned, State(ctx, old(Value()), [], None));
              && Value() == st.disk
              && out == (if st.failure.Some? then Thrown(st.failure.value) else Ok(st.ctx))
    {
      if b.readiness.Some? && !b.readiness.value(planned) { return Thrown(NotReady); }
      hide Walk, ExecutionOrder;
      var summaries, executed := waves.Execution(b.wave(ctx.artifacts), planned, resumeAt);
      if summaries.Thrown? { return Thrown(ExecutionThrew(summaries.error)); }
      out := Ok(ctx.(artifacts := ctx.artifacts.(summaries := Some(summaries.value))));
    }

    /** A node's `run` behind its invariant check. */
    method RunStageBody(b: Bodies, resumeAt: Option<int>, s: StageId, ctx: Context, collate: P.FileName -> int)
      returns (out: Outcome<Context, Failure>)
      requires Allows(ctx.artifacts, s)
      modifies this, waves
      ensures var st := RunBody(b, resumeAt, s, State(ctx, old(Value()), [], None));
              && Value() == st.disk
              && out == (if st.failure.Some? then Thrown(st.failure.value) else Ok(st.ctx))
    {
      hide RunPlanning, RunExecution;
      var a := ctx.artifacts;
      match s {
        case Requirements =>
          var r := b.requirements(a);
          prd := Draft(r, prd);
          if r.Rejected? { return Thrown(StageThrew(s, r.error)); }
          out := Ok(ctx.(artifacts := a.(prd := Some(r.value))));
        case Architecture =>
          var r := b.architecture(a);
          architecture := Draft(r, architecture);
          if r.Rejected? { return Thrown(StageThrew(s, r.error)); }
          out := Ok(ctx.(artifacts := a.(architecture := Some(r.value))));
        case Planning => out := RunPlanningStage(b, ctx, collate);
        case Execution => out := RunExecutionStage(b, resumeAt, a.plan.value, ctx);
        case ProjectReview =>
          var r := b.review(a);
          review := Draft(r, review);
          if r.Rejected? { return Thrown(StageThrew(s, r.error)); }
          out := Ok(ctx.(artifacts := a.(review := Some(r.value))));
        case Qa =>
          var error := b.qa(a);
          out := if error.Some? then Thrown(StageThrew(s, error.value)) else Ok(ctx);
        case Documentation =>
          var r := b.documentation(a);
          documentation := Draft(r, documentation);
          if r.Rejected? { return Thrown(StageThrew(s, r.error)); }
          out := Ok(ctx.(artifacts := a.(documentation := Some(r.value))));
        case Handoff =>
          var error := b.handoff(a);
          out := if error.Some? then Thrown(StageThrew(s, error.value)) else Ok(ctx);
      }
    }

    /** One node of the registry: executed behind its check, or loaded. */
    method VisitNode(b: Bodies, resume: Option<Resume>, s: StageId, ctx: Context, collate: P.FileName -> int)
      returns (out: Outcome<Context, Failure>, ran: bool)
      modifies this, waves
      ensures var st := Node(b, resume, s, State(ctx, old(Value()), [], None));
              && Value() == st.disk && st.executed == (if ran then [s] else [])
              && out == (if st.failure.Some? then Thrown(st.failure.value) else Ok(st.ctx))
    {
      hide RunBody, LoadNode;
      ran := ShouldRun(resume, s);
      assert [] + [s] == [s];
      if ran {
        if !Allows(ctx.artifacts, s) { return Thrown(InvariantViolated(s)), ran; }
        BodyIgnoresTrace(b, if resume.Some? then resume.value.waveNumber else None, s, ctx, Value(), [s]);
        out := RunStageBody(b, if resume.Some? then resume.value.waveNumber else None, s, ctx, collate);
      } else {
        LoadOnlyReads(s, State(ctx, Value(), [], None));
        var loaded := LoadNode(s, State(ctx, Value(), [], None));
        out := if loaded.failure.Some? then Thrown(loaded.failure.value) else Ok(loaded.ctx);
      }
    }

    /** `runProjectStages`: the loop over the registry, reassigning the context. */
    method RunProjectStages(b: Bodies, resume: Option<Resume>, cancelled: nat -> bool, initialCtx: Context,
                            stopAfter: StageId, collate: P.FileName -> int)
      returns (out: Outcome<Context, Failure>, executed: seq<StageId>)
      modifies this, waves
      ensures var st := RunTo(b, resume, cancelled, Begin(initialCtx, old(Value())), Index(stopAfter) + 1);
              && Value() == st.disk && executed == st.executed
              && out == (if st.failure.Some? then Thrown(st.failure.value) else Ok(st.ctx))
    {
      var ctx := initialCtx;
      var stop := Index(stopAfter) + 1;
      executed := [];
      ghost var start := Begin(initialCtx, Value());
      assert RunTo(b, resume, cancelled, start, 0) == State(ctx, Value(), executed, None);
      hide RunTo, Node;
      for i := 0 to stop
        invariant RunTo(b, resume, cancelled, start, i) == State(ctx, Value(), executed, None)
      {
        RunStep(b, resume, cancelled, start, i, stop);
        if cancelled(2 * i) { return Thrown(Cancelled), executed; }
        NodeIgnoresTrace(b, resume, StageAt(i), ctx, Value(), executed);
        var next, ran := VisitNode(b, resume, StageAt(i), ctx, collate);
        executed := executed + if ran then [StageAt(i)] else [];
        if next.Thrown? { return Thrown(next.error), executed; }
        ctx := next.value;
        if cancelled(2 * i + 1) { return Thrown(Cancelled), executed; }
      }
      out := Ok(ctx);
    }
  }

  lemma {:induction false} NodeIgnoresTrace(b: Bodies, resume: Option<Resume>, s: StageId, ctx: Context, d: Disk,
                                            executed: seq<StageId>)
    ensures var alone, st := Node(b, resume, s, State(ctx, d, [], None)), Node(b, resume, s, State(ctx, d, executed, None));
            st == alone.(executed := executed + alone.executed)
  {
    var resumeAt := if resume.Some? then resume.value.waveNumber else None;
    if ShouldRun(resume, s) && Allows(ctx.artifacts, s) {
      BodyIgnoresTrace(b, resumeAt, s, ctx, d, executed + [s]);
      BodyIgnoresTrace(b, resumeAt, s, ctx, d, [s]);
      assert executed + ([] + [s]) == executed + [s];
      hide RunBody;
    } else {
      LoadIgnoresTrace(s, ctx, d, executed);
      hide LoadNode;
    }
  }

  lemma {:induction false} LoadIgnoresTrace(s: StageId, ctx: Context, d: Disk, executed: seq<StageId>)
    ensures LoadNode(s, State(ctx, d, executed, None)) == LoadNode(s, State(ctx, d, [], None)).(executed := executed)
    ensures LoadNode(s, State(ctx, d, [], None)).executed == []
  {
    hide LoadSummaries;
  }

  lemma {:induction false} BodyIgnoresTrace(b: Bodies, resumeAt: Option<int>, s: StageId, ctx: Context, d: Disk,
                                            executed: seq<StageId>)
    requires Allows(ctx.artifacts, s)
    ensures RunBody(b, resumeAt, s, State(ctx, d, executed, None))
            == RunBody(b, resumeAt, s, State(ctx, d, [], None)).(executed := executed)
  {
    hide Walk, ExecutionOrder, Serialized;
  }

  lemma {:induction false} LoadOnlyReads(s: StageId, st: State)
    ensures LoadNode(s, st).disk == st.disk && LoadNode(s, st).executed == st.executed
  {
    hide LoadSummaries;
  }

  lemma {:induction false} RunStep(b: Bodies, resume: Option<Resume>, cancelled: nat -> bool, start: State, i: nat,
                                   stop: nat)
    requires i < stop <= 8 && RunTo(b, resume, cancelled, start, i).failure.None?
    ensures RunTo(b, resume, cancelled, start, i + 1)
            == Visit(b, resume, cancelled, i, RunTo(b, resume, cancelled, start, i))
    ensures RunTo(b, resume, cancelled, start, i + 1).failure.Some? ==>
              RunTo(b, resume, cancelled, start, stop) == RunTo(b, resume, cancelled, start, i + 1)
  {
    if RunTo(b, resume, cancelled, start, i + 1).failure.Some? {
      FailureStays(b, resume, cancelled, start, i + 1, stop);
    }
  }

  lemma {:induction false} FailureStays(b: Bodies, resume: Option<Resume>, cancelled: nat -> bool, start: State,
                                        n: nat, m: nat)
    requires n <= m <= 8 && RunTo(b, resume, cancelled, start, n).failure.Some?
    ensures RunTo(b, resume, cancelled, start, m) == RunTo(b, resume, cancelled, start, n)
  {
    hide Visit;
    if n < m {
      FailureStays(b, resume, cancelled, start, n, m - 1);
    }
  }
}
