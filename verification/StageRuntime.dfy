/** Model of the stage runtime (`stageRuntime.ts`, `stageRuntimeSupport.ts`): the
    draft, ask, review, revise loop of one stage.

    The stage agent, the review agent, the user and the cancellation flag are oracles:
    `agent(n)` is what the n-th call of the agent does, whatever it was told. Since the
    oracles are arbitrary functions, a statement about every `StageDefinition` is a
    statement about every adaptive agent, reviewer and user.

    Functions give the meaning of each operation on values (`RunState`); the class
    `StageRun` is the mutable run object, and each of its methods is proved to compute
    that meaning in place. */
module StageRuntime {
  import opened Arithmetic
  import opened Outcomes
  import opened Text

  // ---------- data ----------

  datatype StageStatus =
    | NotStarted | ChatInProgress | WaitingForUser | ArtifactReady | InReview
    | RevisionRequested | Approved | Blocked | Failed

  datatype LogType =
    | StatusChanged | StageMessage | UserMessage | ArtifactCreated
    | ReviewPass | ReviewRevise | FileWritten

  datatype ReviewVerdict = VerdictRevise | VerdictBlock

  /** The `data` fields `reviewHistory` looks at: `cycle` and `reviewOutcome`. */
  datatype ReviewMark = ReviewMark(cycle: nat, verdict: ReviewVerdict)

  /** The texts the runtime writes: what somebody said, or one of its own fixed phrases. */
  datatype Note =
    | Said(text: string)
    | StatusLine(status: StageStatus)
    | ArtifactNote
    | ReviewPassedNote
    | FileNote(name: string, path: string)
    | RepeatedPrompt(count: nat)
    | NoAnswerQueued(stageId: string)
    | NoPassAfter(reviews: int)
    | GateUnanswered(stageId: string)

  datatype LogEntry = LogEntry(kind: LogType, message: Note, mark: Option<ReviewMark>)

  datatype Feedback = Feedback(cycle: nat, verdict: ReviewVerdict, text: Note)

  datatype ReviewContext = ReviewContext(cycle: nat, maxReviews: int, isFinalCycle: bool, priorFeedback: seq<Feedback>)

  datatype AgentInput =
    | Begin(turnCount: nat)
    | UserReply(turnCount: nat, userMessage: string)
    | ReviewFeedback(turnCount: nat, reviewFeedback: string, priorFeedback: seq<Feedback>)

  datatype AgentResponse = Message(message: string) | Artifact(artifact: string)

  datatype ReviewResponse = Pass | Revise(feedback: string) | Block(reason: string)

  datatype ArtifactFile = ArtifactFile(name: string, path: string)

  datatype StageError =
    | Cancelled
    | BlockedRun(summary: Note)
    | PortPoolExhausted
    | AdapterFailure(text: string)

  datatype RecoveryCause = ReviewLimit | ReviewBlock | StageFault | SystemError | PortPoolCause

  datatype RecoveryStatus = RecoveryBlocked | RecoveryFailed

  datatype RecoveryRecord = RecoveryRecord(status: RecoveryStatus, cause: RecoveryCause, stageId: string, summary: Note)

  type Reply<T> = Outcome<T, StageError>

  datatype StageDefinition = StageDefinition(
    stageId: string,
    maxReviews: int,
    agent: nat -> Reply<AgentResponse>,
    reviewer: nat -> Reply<ReviewResponse>,
    user: nat -> Reply<string>,
    persistArtifacts: nat -> Reply<()>,
    writeFiles: nat -> Reply<seq<ArtifactFile>>,
    onApproved: Reply<string>,
    cancelled: nat -> bool)

  /** A run as a value: the fields of the run object, plus the calls made on the
      oracles so far (their number selects the next oracle answer) and the recovery
      records written. */
  datatype RunState = RunState(
    status: StageStatus,
    userTurnCount: nat,
    stageAgentTurnCount: nat,
    reviewIteration: nat,
    logs: seq<LogEntry>,
    recoveries: seq<RecoveryRecord>,
    agentCalls: seq<AgentInput>,
    reviewCalls: seq<ReviewContext>,
    prompts: seq<string>,
    checks: nat)

  datatype Step<+T> = Step(run: RunState, out: Outcome<T, StageError>)

  const MAX_IDENTICAL_STAGE_PROMPTS: nat := 2
  const PORT_POOL_MESSAGE := "worktree_port_pool_exhausted"

  function ErrorNote(error: StageError): Note {
    match error
    case Cancelled => Said("workflow_cancelled")
    case BlockedRun(summary) => summary
    case PortPoolExhausted => Said(PORT_POOL_MESSAGE)
    case AdapterFailure(text) => Said(text)
  }

  // ---------- the meaning of each operation ----------

  function InitialRun(): RunState {
    RunState(NotStarted, 0, 0, 0, [], [], [], [], [], 0)
  }

  function WithLog(run: RunState, entry: LogEntry): RunState {
    run.(logs := run.logs + [entry])
  }

  function StatusEntry(status: StageStatus): LogEntry {
    LogEntry(StatusChanged, StatusLine(status), None)
  }

  function WithStatus(run: RunState, status: StageStatus): RunState {
    WithLog(run.(status := status), StatusEntry(status))
  }

  function WithRecovery(stageId: string, run: RunState, cause: RecoveryCause, summary: Note): RunState {
    run.(recoveries := run.recoveries +
           [RecoveryRecord(if cause == SystemError then RecoveryFailed else RecoveryBlocked, cause, stageId, summary)])
  }

  function FileEntries(files: seq<ArtifactFile>): seq<LogEntry> {
    seq(|files|, i requires 0 <= i < |files| => LogEntry(FileWritten, FileNote(files[i].name, files[i].path), None))
  }

  /** The feedback entries found in a log, in log order (`reviewHistory`); a mark with
      cycle 0 does not count. */
  function ReviewHistory(logs: seq<LogEntry>): seq<Feedback> {
    if logs == [] then []
    else
      var last := logs[|logs| - 1];
      ReviewHistory(logs[..|logs| - 1]) +
      (if last.mark.Some? && last.mark.value.cycle != 0
       then [Feedback(last.mark.value.cycle, last.mark.value.verdict, last.message)] else [])
  }

  function CountPrompts(logs: seq<LogEntry>, message: string): nat {
    if logs == [] then 0
    else
      var last := logs[|logs| - 1];
      CountPrompts(logs[..|logs| - 1], message) + (if last.kind == StageMessage && last.message == Said(message) then 1 else 0)
  }

  function CountKind(logs: seq<LogEntry>, kind: LogType): nat {
    if logs == [] then 0
    else CountKind(logs[..|logs| - 1], kind) + (if logs[|logs| - 1].kind == kind then 1 else 0)
  }

  function ContextForReview(run: RunState, maxReviews: int): ReviewContext {
    ReviewContext(run.reviewIteration, maxReviews, run.reviewIteration >= maxReviews, ReviewHistory(run.logs))
  }

  function Checked(d: StageDefinition, run: RunState): Step<()> {
    Step(run.(checks := run.checks + 1), if d.cancelled(run.checks) then Thrown(Cancelled) else Ok(()))
  }

  function Advanced(d: StageDefinition, run: RunState, input: AgentInput): Step<AgentResponse> {
    var before := Checked(d, run);
    if before.out.Thrown? then Step(before.run, Thrown(before.out.error))
    else
      var reply := d.agent(|run.agentCalls|);
      var called := before.run.(agentCalls := run.agentCalls + [input]);
      if reply.Thrown? then Step(called, Thrown(reply.error))
      else
        var after := Checked(d, called);
        if after.out.Thrown? then Step(after.run, Thrown(after.out.error))
        else Step(after.run.(stageAgentTurnCount := run.stageAgentTurnCount + 1), Ok(reply.value))
  }

  /** The two prompt-driven blocks: the same prompt too often, or nobody to answer it. */
  function BlockedOnPrompt(d: StageDefinition, run: RunState, summary: Note): RunState {
    var logged := WithLog(WithStatus(run, Blocked), LogEntry(StatusChanged, summary, None));
    WithRecovery(d.stageId, logged, StageFault, summary)
  }

  function AskedRun(run: RunState, message: string): RunState {
    WithLog(WithStatus(run, WaitingForUser), LogEntry(StageMessage, Said(message), None)).(prompts := run.prompts + [message])
  }

  function AnsweredRun(run: RunState, answer: string): RunState {
    WithStatus(WithLog(run, LogEntry(UserMessage, Said(answer), None)).(userTurnCount := run.userTurnCount + 1), ChatInProgress)
  }

  function ContinuedAfterUserMessage(d: StageDefinition, run: RunState, message: string): Step<AgentResponse> {
    var prior := CountPrompts(run.logs, message);
    if prior >= MAX_IDENTICAL_STAGE_PROMPTS then
      var summary := RepeatedPrompt(prior + 1);
      Step(BlockedOnPrompt(d, run, summary), Thrown(BlockedRun(summary)))
    else
      var asked := AskedRun(run, message);
      var reply := d.user(|run.prompts|);
      if reply.Thrown? then Step(asked, Thrown(reply.error))
      else
        var live := Checked(d, asked);
        if live.out.Thrown? then Step(live.run, Thrown(live.out.error))
        else if reply.value == NO_ANSWER_SENTINEL then
          var summary := NoAnswerQueued(d.stageId);
          Step(BlockedOnPrompt(d, live.run, summary), Thrown(BlockedRun(summary)))
        else
          Advanced(d, AnsweredRun(live.run, reply.value), UserReply(run.stageAgentTurnCount + 1, reply.value))
  }

  function RevisionRequestedFrom(d: StageDefinition, run: RunState, feedback: string): Step<AgentResponse> {
    var logged := WithLog(run, LogEntry(ReviewRevise, Said(feedback), Some(ReviewMark(run.reviewIteration, VerdictRevise))));
    if run.reviewIteration >= d.maxReviews then
      var summary := NoPassAfter(d.maxReviews);
      Step(WithRecovery(d.stageId, WithStatus(logged, Blocked), ReviewLimit, summary), Thrown(BlockedRun(summary)))
    else
      var requested := WithStatus(logged, RevisionRequested);
      Advanced(d, requested, ReviewFeedback(requested.stageAgentTurnCount + 1, feedback, ReviewHistory(requested.logs)))
  }

  datatype Next = Finished(result: string) | Again(response: AgentResponse)

  function Reviewed(d: StageDefinition, run: RunState, review: ReviewResponse): Step<Next> {
    match review
    case Pass =>
      var live := Checked(d, run);
      if live.out.Thrown? then Step(live.run, Thrown(live.out.error))
      else
        var approved := WithStatus(WithLog(live.run, LogEntry(ReviewPass, ReviewPassedNote, None)), Approved);
        if d.onApproved.Thrown? then Step(approved, Thrown(d.onApproved.error))
        else
          var done := Checked(d, approved);
          if done.out.Thrown? then Step(done.run, Thrown(done.out.error)) else Step(done.run, Ok(Finished(d.onApproved.value)))
    case Block(reason) =>
      var logged := WithLog(run, LogEntry(StatusChanged, Said(reason), Some(ReviewMark(run.reviewIteration, VerdictBlock))));
      Step(WithRecovery(d.stageId, WithStatus(logged, Blocked), ReviewBlock, Said(reason)), Thrown(BlockedRun(Said(reason))))
    case Revise(feedback) =>
      var revision := RevisionRequestedFrom(d, run, feedback);
      Step(revision.run, if revision.out.Thrown? then Thrown(revision.out.error) else Ok(Again(revision.out.value)))
  }

  function ArtifactsPersisted(d: StageDefinition, run: RunState): Step<()> {
    var reply := d.persistArtifacts(|run.reviewCalls|);
    if reply.Thrown? then Step(run, Thrown(reply.error))
    else
      var live := Checked(d, run);
      if live.out.Thrown? then live
      else
        var written := d.writeFiles(|run.reviewCalls|);
        if written.Thrown? then Step(live.run, Thrown(written.error))
        else Step(live.run.(logs := live.run.logs + FileEntries(written.value)), Ok(()))
  }

  function ReadyRun(run: RunState): RunState {
    WithLog(WithStatus(run, ArtifactReady), LogEntry(ArtifactCreated, ArtifactNote, None))
  }

  function InReviewRun(run: RunState): RunState {
    WithStatus(run, InReview).(reviewIteration := run.reviewIteration + 1)
  }

  function CalledRun(d: StageDefinition, run: RunState): RunState {
    run.(reviewCalls := run.reviewCalls + [ContextForReview(run, d.maxReviews)])
  }

  /** One round of the loop on an artifact: persist it, have it reviewed, act on the verdict. */
  function ArtifactTurn(d: StageDefinition, run: RunState): Step<Next> {
    var live := Checked(d, run);
    if live.out.Thrown? then Step(live.run, Thrown(live.out.error))
    else
      var written := ArtifactsPersisted(d, ReadyRun(live.run));
      if written.out.Thrown? then Step(written.run, Thrown(written.out.error))
      else
        var open := Checked(d, InReviewRun(written.run));
        if open.out.Thrown? then Step(open.run, Thrown(open.out.error))
        else
          var reply := d.reviewer(|run.reviewCalls|);
          var called := CalledRun(d, open.run);
          if reply.Thrown? then Step(called, Thrown(reply.error))
          else
            var back := Checked(d, called);
            if back.out.Thrown? then Step(back.run, Thrown(back.out.error))
            else Reviewed(d, back.run, reply.value)
  }

  /** One round of the `while (true)` loop. */
  function Turn(d: StageDefinition, run: RunState, response: AgentResponse): Step<Next> {
    match response
    case Message(message) =>
      var s := ContinuedAfterUserMessage(d, run, message);
      Step(s.run, if s.out.Thrown? then Thrown(s.out.error) else Ok(Again(s.out.value)))
    case Artifact(_) => ArtifactTurn(d, run)
  }

  // ---------- termination ----------

  /** Every message the agent ever sends is on the finite list `menu`. */
  ghost predicate SpeaksFrom(d: StageDefinition, menu: seq<string>) {
    forall n: nat :: d.agent(n).Ok? && d.agent(n).value.Message? ==> d.agent(n).value.message in menu
  }

  ghost predicate OnMenu(response: AgentResponse, menu: seq<string>) {
    response.Message? ==> response.message in menu
  }

  function PromptsLeft(logs: seq<LogEntry>, message: string): nat {
    if CountPrompts(logs, message) >= MAX_IDENTICAL_STAGE_PROMPTS then 0
    else MAX_IDENTICAL_STAGE_PROMPTS - CountPrompts(logs, message)
  }

  /** How many more prompts the identical-prompt cap allows. */
  function PromptBudget(menu: seq<string>, logs: seq<LogEntry>): nat {
    if menu == [] then 0 else PromptsLeft(logs, menu[0]) + PromptBudget(menu[1..], logs)
  }

  function ReviewBudget(d: StageDefinition, run: RunState): nat {
    if run.reviewIteration >= d.maxReviews then 0 else d.maxReviews - run.reviewIteration
  }

  function PromptCap(menu: seq<string>): nat { MAX_IDENTICAL_STAGE_PROMPTS * |menu| }

  function Fuel(d: StageDefinition, menu: seq<string>, run: RunState): nat {
    PromptBudget(menu, run.logs) + ReviewBudget(d, run)
  }

  lemma {:induction false} CountsConcat(a: seq<LogEntry>, b: seq<LogEntry>, message: string)
    ensures CountPrompts(a + b, message) == CountPrompts(a, message) + CountPrompts(b, message)
    decreases |b|
  {
    if b == [] {
      assert a + b == a;
    } else {
      assert (a + b)[..|a + b| - 1] == a + b[..|b| - 1];
      CountsConcat(a, b[..|b| - 1], message);
    }
  }

  lemma {:induction false} KindsConcat(a: seq<LogEntry>, b: seq<LogEntry>, kind: LogType)
    ensures CountKind(a + b, kind) == CountKind(a, kind) + CountKind(b, kind)
    decreases |b|
  {
    if b == [] {
      assert a + b == a;
    } else {
      assert (a + b)[..|a + b| - 1] == a + b[..|b| - 1];
      KindsConcat(a, b[..|b| - 1], kind);
    }
  }

  lemma {:induction false} HistoryConcat(a: seq<LogEntry>, b: seq<LogEntry>)
    ensures ReviewHistory(a + b) == ReviewHistory(a) + ReviewHistory(b)
    decreases |b|
  {
    if b == [] {
      assert a + b == a;
    } else {
      assert (a + b)[..|a + b| - 1] == a + b[..|b| - 1];
      HistoryConcat(a, b[..|b| - 1]);
    }
  }

  /** Entries that are no prompt, no user message and no review mark. */
  ghost predicate Quiet(entries: seq<LogEntry>) {
    forall i :: 0 <= i < |entries| ==>
                  entries[i].kind != StageMessage && entries[i].kind != UserMessage && entries[i].mark.None?
  }

  lemma {:induction false} QuietCounts(entries: seq<LogEntry>)
    requires Quiet(entries)
    ensures forall m :: CountPrompts(entries, m) == 0
    ensures CountKind(entries, UserMessage) == 0
    ensures ReviewHistory(entries) == []
  {
    if entries != [] {
      QuietCounts(entries[..|entries| - 1]);
    }
  }

  lemma {:induction false} QuietAppend(logs: seq<LogEntry>, entries: seq<LogEntry>)
    requires Quiet(entries)
    ensures forall m :: CountPrompts(logs + entries, m) == CountPrompts(logs, m)
    ensures CountKind(logs + entries, UserMessage) == CountKind(logs, UserMessage)
    ensures ReviewHistory(logs + entries) == ReviewHistory(logs)
  {
    QuietCounts(entries);
    forall m ensures CountPrompts(logs + entries, m) == CountPrompts(logs, m) {
      CountsConcat(logs, entries, m);
    }
    KindsConcat(logs, entries, UserMessage);
    HistoryConcat(logs, entries);
  }

  lemma {:induction false} BudgetUnchanged(menu: seq<string>, a: seq<LogEntry>, b: seq<LogEntry>)
    requires forall m :: CountPrompts(a, m) == CountPrompts(b, m)
    ensures PromptBudget(menu, a) == PromptBudget(menu, b)
  {
    if menu != [] {
      BudgetUnchanged(menu[1..], a, b);
    }
  }

  lemma {:induction false} BudgetDrops(menu: seq<string>, a: seq<LogEntry>, b: seq<LogEntry>, message: string)
    requires forall m :: CountPrompts(b, m) == CountPrompts(a, m) + (if m == message then 1 else 0)
    requires CountPrompts(a, message) < MAX_IDENTICAL_STAGE_PROMPTS
    ensures PromptBudget(menu, b) <= PromptBudget(menu, a)
    ensures message in menu ==> PromptBudget(menu, b) < PromptBudget(menu, a)
  {
    if menu != [] {
      BudgetDrops(menu[1..], a, b, message);
    }
  }

  // ---------- the loop invariant ----------

  function FeedbackText(d: StageDefinition, n: nat): string {
    if d.reviewer(n).Ok? && d.reviewer(n).value.Revise? then d.reviewer(n).value.feedback else ""
  }

  /** The first n review rounds as `priorFeedback` lists them: cycles 1..n in order,
      each with the text the review agent gave in that round. */
  function FeedbackUpTo(d: StageDefinition, n: nat): (f: seq<Feedback>)
    ensures |f| == n
  {
    if n == 0 then [] else FeedbackUpTo(d, n - 1) + [Feedback(n, VerdictRevise, Said(FeedbackText(d, n - 1)))]
  }

  lemma {:induction false} FeedbackStep(d: StageDefinition, n: nat)
    ensures FeedbackUpTo(d, n + 1) == FeedbackUpTo(d, n) + [Feedback(n + 1, VerdictRevise, Said(FeedbackText(d, n)))]
  {
  }

  /** What every reviewer call was told: the n-th call (from 1) has cycle n, is final
      exactly when n >= maxReviews, and sees exactly the n-1 earlier revisions. */
  ghost predicate ReviewersBriefed(d: StageDefinition, calls: seq<ReviewContext>) {
    forall n :: 0 <= n < |calls| ==>
                  calls[n] == ReviewContext(n + 1, d.maxReviews, n + 1 >= d.maxReviews, FeedbackUpTo(d, n))
  }

  ghost predicate AllRevised(d: StageDefinition, n: nat) {
    forall i: nat :: i < n ==> d.reviewer(i).Ok? && d.reviewer(i).value.Revise?
  }

  /** What holds each time the loop starts a round. */
  ghost predicate LoopInv(d: StageDefinition, menu: seq<string>, run: RunState) {
    && run.recoveries == []
    && run.status !in {Approved, Blocked, Failed}
    && run.stageAgentTurnCount == 1 + run.userTurnCount + run.reviewIteration
    && |run.agentCalls| == run.stageAgentTurnCount
    && |run.prompts| == run.userTurnCount == CountKind(run.logs, UserMessage)
    && PromptBudget(menu, run.logs) + run.userTurnCount <= PromptCap(menu)
    && |run.reviewCalls| == run.reviewIteration
    && (run.reviewIteration > 0 ==> run.reviewIteration < d.maxReviews)
    && AllRevised(d, run.reviewIteration)
    && ReviewHistory(run.logs) == FeedbackUpTo(d, run.reviewIteration)
    && ReviewersBriefed(d, run.reviewCalls)
  }

  /** What holds when the body has ended, by returning or by throwing `out.error`. */
  ghost predicate Ended<T>(d: StageDefinition, menu: seq<string>, run: RunState, out: Outcome<T, StageError>) {
    && |run.agentCalls| <= 1 + PromptCap(menu) + Max(0, d.maxReviews - 1)
    && |run.prompts| <= PromptCap(menu)
    && |run.reviewCalls| <= Max(1, d.maxReviews)
    && run.userTurnCount == CountKind(run.logs, UserMessage)
    && ReviewersBriefed(d, run.reviewCalls)
    && (run.status == Blocked <==> run.recoveries != [])
    && run.status != Failed
    && (run.status == Blocked ==>
          && |run.recoveries| == 1
          && run.recoveries[0].status == RecoveryBlocked
          && run.recoveries[0].stageId == d.stageId
          && run.recoveries[0].cause in {ReviewLimit, ReviewBlock, StageFault}
          && out == Thrown(BlockedRun(run.recoveries[0].summary)))
    && (run.status == Approved && out.Thrown? ==>
          out.error == if d.onApproved.Ok? then Cancelled else d.onApproved.error)
    && (run.status == Approved ==>
          run.checks > 0 && (out.Ok? <==> d.onApproved.Ok? && !d.cancelled(run.checks - 1)))
    && (out.Ok? ==>
          && run.status == Approved
          && run.reviewIteration == |run.reviewCalls| > 0
          && AllRevised(d, run.reviewIteration - 1)
          && d.reviewer(run.reviewIteration - 1) == Ok(Pass)
          && run.stageAgentTurnCount == |run.agentCalls| == run.userTurnCount + run.reviewIteration)
    && (run.recoveries != [] && run.recoveries[0].cause == ReviewLimit ==>
          && |run.reviewCalls| == Max(1, d.maxReviews)
          && AllRevised(d, |run.reviewCalls|))
  }

  /** A round either starts another one, with less fuel, or ends the body. */
  ghost predicate RoundKept(d: StageDefinition, menu: seq<string>, before: RunState, s: Step<Next>) {
    if s.out.Ok? && s.out.value.Again? then
      && LoopInv(d, menu, s.run) && OnMenu(s.out.value.response, menu) && Fuel(d, menu, s.run) < Fuel(d, menu, before)
    else Ended(d, menu, s.run, s.out)
  }

  // ---------- one round keeps the invariant ----------

  /** A step that asks the agent again, with less fuel, or ends the body. */
  ghost predicate TurnKept(d: StageDefinition, menu: seq<string>, before: RunState, s: Step<AgentResponse>) {
    if s.out.Ok? then LoopInv(d, menu, s.run) && OnMenu(s.out.value, menu) && Fuel(d, menu, s.run) < Fuel(d, menu, before)
    else Ended(d, menu, s.run, s.out)
  }

  /** The run while the user's answer is awaited. */
  ghost predicate Waiting(menu: seq<string>, before: RunState, run: RunState) {
    && run == before.(logs := run.logs, prompts := run.prompts, checks := run.checks, status := WaitingForUser)
    && CountKind(run.logs, UserMessage) == CountKind(before.logs, UserMessage)
    && |run.prompts| == |before.prompts| + 1
    && ReviewHistory(run.logs) == ReviewHistory(before.logs)
    && PromptBudget(menu, run.logs) < PromptBudget(menu, before.logs)
  }

  lemma {:induction false} AskingWaits(menu: seq<string>, run: RunState, message: string)
    requires message in menu && CountPrompts(run.logs, message) < MAX_IDENTICAL_STAGE_PROMPTS
    ensures Waiting(menu, run, AskedRun(run, message))
  {
    hide CountPrompts, CountKind, ReviewHistory, PromptBudget;
    PromptAppend(run.logs, [StatusEntry(WaitingForUser)], LogEntry(StageMessage, Said(message), None));
    BudgetDrops(menu, run.logs, AskedRun(run, message).logs, message);
  }

  /** The two ways a prompt blocks the run: asked too often, or nobody there to answer. */
  lemma {:induction false} PromptBlocks(d: StageDefinition, menu: seq<string>, before: RunState, run: RunState,
                                        summary: Note)
    requires LoopInv(d, menu, before) && (run == before || Waiting(menu, before, run))
    ensures TurnKept(d, menu, before, Step(BlockedOnPrompt(d, run, summary), Thrown(BlockedRun(summary))))
  {
    hide CountPrompts, CountKind, ReviewHistory, PromptBudget, FeedbackUpTo;
    var tail := [StatusEntry(Blocked), LogEntry(StatusChanged, summary, None)];
    QuietAppend(run.logs, tail);
    assert BlockedOnPrompt(d, run, summary).logs == run.logs + tail;
  }

  lemma {:induction false} ThrownWhileWaiting(d: StageDefinition, menu: seq<string>, before: RunState, run: RunState,
                                              error: StageError)
    requires LoopInv(d, menu, before) && Waiting(menu, before, run)
    ensures TurnKept(d, menu, before, Step(run, Thrown(error)))
  {
    hide CountPrompts, CountKind, ReviewHistory, PromptBudget, FeedbackUpTo;
  }

  /** The agent call that follows an answered prompt. */
  lemma {:induction false} AnsweredKeeps(d: StageDefinition, menu: seq<string>, before: RunState, run: RunState,
                                         answer: string)
    requires SpeaksFrom(d, menu) && LoopInv(d, menu, before) && Waiting(menu, before, run)
    ensures TurnKept(d, menu, before, Advanced(d, AnsweredRun(run, answer), UserReply(before.stageAgentTurnCount + 1, answer)))
  {
    hide CountPrompts, CountKind, ReviewHistory, PromptBudget, FeedbackUpTo;
    UserAppend(run.logs, LogEntry(UserMessage, Said(answer), None), StatusEntry(ChatInProgress));
    BudgetUnchanged(menu, run.logs, AnsweredRun(run, answer).logs);
  }

  lemma {:induction false} CheckedWaits(d: StageDefinition, menu: seq<string>, before: RunState, run: RunState)
    requires Waiting(menu, before, run)
    ensures Waiting(menu, before, Checked(d, run).run)
  {
    hide CountKind, ReviewHistory, PromptBudget;
  }

  /** Asking the user once: the prompt budget shrinks, and the run stays well briefed. */
  lemma {:induction false} ContinuedKeeps(d: StageDefinition, menu: seq<string>, run: RunState, message: string)
    requires SpeaksFrom(d, menu) && message in menu && LoopInv(d, menu, run)
    ensures TurnKept(d, menu, run, ContinuedAfterUserMessage(d, run, message))
  {
    hide CountPrompts, LoopInv, Waiting, TurnKept, AskedRun, AnsweredRun, Advanced, BlockedOnPrompt;
    var prior := CountPrompts(run.logs, message);
    if prior >= MAX_IDENTICAL_STAGE_PROMPTS {
      PromptBlocks(d, menu, run, run, RepeatedPrompt(prior + 1));
    } else {
      var asked := AskedRun(run, message);
      AskingWaits(menu, run, message);
      var reply := d.user(|run.prompts|);
      if reply.Thrown? {
        ThrownWhileWaiting(d, menu, run, asked, reply.error);
      } else {
        var live := Checked(d, asked);
        CheckedWaits(d, menu, run, asked);
        if live.out.Thrown? {
          ThrownWhileWaiting(d, menu, run, live.run, live.out.error);
        } else if reply.value == NO_ANSWER_SENTINEL {
          PromptBlocks(d, menu, run, live.run, NoAnswerQueued(d.stageId));
        } else {
          AnsweredKeeps(d, menu, run, live.run, reply.value);
        }
      }
    }
  }

  lemma {:induction false} PromptAppend(logs: seq<LogEntry>, quiet: seq<LogEntry>, prompt: LogEntry)
    requires Quiet(quiet) && prompt.kind == StageMessage && prompt.mark.None?
    ensures var after := logs + quiet + [prompt];
            && (forall m :: CountPrompts(after, m) == CountPrompts(logs, m) + (if prompt.message == Said(m) then 1 else 0))
            && CountKind(after, UserMessage) == CountKind(logs, UserMessage)
            && ReviewHistory(after) == ReviewHistory(logs)
  {
    QuietAppend(logs, quiet);
    assert (logs + quiet + [prompt])[..|logs + quiet|] == logs + quiet;
  }

  lemma {:induction false} UserAppend(logs: seq<LogEntry>, heard: LogEntry, resumed: LogEntry)
    requires heard.kind == UserMessage && heard.mark.None? && Quiet([resumed])
    ensures var after := logs + [heard] + [resumed];
            && (forall m :: CountPrompts(after, m) == CountPrompts(logs, m))
            && CountKind(after, UserMessage) == CountKind(logs, UserMessage) + 1
            && ReviewHistory(after) == ReviewHistory(logs)
  {
    assert (logs + [heard])[..|logs|] == logs;
    QuietAppend(logs + [heard], [resumed]);
  }

  lemma {:induction false} MarkedAppend(logs: seq<LogEntry>, marked: LogEntry, status: LogEntry)
    requires marked.kind !in {StageMessage, UserMessage} && marked.mark.Some? && marked.mark.value.cycle != 0
    requires Quiet([status])
    ensures var after := logs + [marked] + [status];
            && (forall m :: CountPrompts(after, m) == CountPrompts(logs, m))
            && CountKind(after, UserMessage) == CountKind(logs, UserMessage)
            && ReviewHistory(after)
               == ReviewHistory(logs) + [Feedback(marked.mark.value.cycle, marked.mark.value.verdict, marked.message)]
  {
    assert (logs + [marked])[..|logs|] == logs;
    QuietAppend(logs + [marked], [status]);
  }

  /** The run in review: one more round than the invariant counts, nothing else changed. */
  ghost predicate InReviewOf(d: StageDefinition, menu: seq<string>, before: RunState, run: RunState) {
    && run.recoveries == []
    && run.status == InReview
    && run.stageAgentTurnCount == before.stageAgentTurnCount
    && run.agentCalls == before.agentCalls
    && run.prompts == before.prompts
    && run.userTurnCount == before.userTurnCount == CountKind(run.logs, UserMessage)
    && (forall m :: CountPrompts(run.logs, m) == CountPrompts(before.logs, m))
    && run.reviewIteration == before.reviewIteration + 1 == |run.reviewCalls|
    && ReviewHistory(run.logs) == FeedbackUpTo(d, before.reviewIteration)
    && ReviewersBriefed(d, run.reviewCalls)
  }

  lemma {:induction false} PassEnds(d: StageDefinition, menu: seq<string>, before: RunState, run: RunState)
    requires LoopInv(d, menu, before) && InReviewOf(d, menu, before, run)
    requires d.reviewer(before.reviewIteration) == Ok(Pass)
    ensures var s := Reviewed(d, run, Pass);
            !(s.out.Ok? && s.out.value.Again?) && Ended(d, menu, s.run, s.out)
  {
    hide CountPrompts, CountKind, ReviewHistory, PromptBudget, FeedbackUpTo;
    var tail := [LogEntry(ReviewPass, ReviewPassedNote, None), StatusEntry(Approved)];
    QuietAppend(run.logs, tail);
    assert d.cancelled(run.checks) || Reviewed(d, run, Pass).run.logs == run.logs + tail;
  }

  lemma {:induction false} BlockEnds(d: StageDefinition, menu: seq<string>, before: RunState, run: RunState,
                                     reason: string)
    requires LoopInv(d, menu, before) && InReviewOf(d, menu, before, run)
    ensures var s := Reviewed(d, run, Block(reason));
            s.out.Thrown? && Ended(d, menu, s.run, s.out)
  {
    hide CountPrompts, CountKind, ReviewHistory, PromptBudget, FeedbackUpTo;
    MarkedAppend(run.logs, LogEntry(StatusChanged, Said(reason), Some(ReviewMark(run.reviewIteration, VerdictBlock))),
                 StatusEntry(Blocked));
  }

  lemma {:induction false} ReviseKeeps(d: StageDefinition, menu: seq<string>, before: RunState, run: RunState,
                                       feedback: string)
    requires SpeaksFrom(d, menu) && LoopInv(d, menu, before) && InReviewOf(d, menu, before, run)
    requires d.reviewer(before.reviewIteration) == Ok(Revise(feedback))
    ensures RoundKept(d, menu, before, Reviewed(d, run, Revise(feedback)))
  {
    hide CountPrompts, CountKind, ReviewHistory, PromptBudget, FeedbackUpTo;
    var s := Reviewed(d, run, Revise(feedback));
    var marked := LogEntry(ReviewRevise, Said(feedback), Some(ReviewMark(run.reviewIteration, VerdictRevise)));
    var status := StatusEntry(if run.reviewIteration >= d.maxReviews then Blocked else RevisionRequested);
    MarkedAppend(run.logs, marked, status);
    assert s.run.logs == run.logs + [marked] + [status];
    BudgetUnchanged(menu, before.logs, s.run.logs);
    FeedbackStep(d, before.reviewIteration);
  }

  lemma {:induction false} ReviewedKeeps(d: StageDefinition, menu: seq<string>, before: RunState, run: RunState)
    requires SpeaksFrom(d, menu) && LoopInv(d, menu, before) && InReviewOf(d, menu, before, run)
    requires d.reviewer(before.reviewIteration).Ok?
    ensures RoundKept(d, menu, before, Reviewed(d, run, d.reviewer(before.reviewIteration).value))
  {
    hide CountPrompts, CountKind, ReviewHistory, PromptBudget, FeedbackUpTo;
    match d.reviewer(before.reviewIteration).value
    case Pass => PassEnds(d, menu, before, run);
    case Block(reason) => BlockEnds(d, menu, before, run, reason);
    case Revise(feedback) => ReviseKeeps(d, menu, before, run, feedback);
  }

  lemma {:induction false} ArtifactTurnKeeps(d: StageDefinition, menu: seq<string>, run: RunState)
    requires SpeaksFrom(d, menu) && LoopInv(d, menu, run)
    ensures RoundKept(d, menu, run, ArtifactTurn(d, run))
  {
    hide CountPrompts, CountKind, ReviewHistory, PromptBudget, FeedbackUpTo, Reviewed;
    var live := Checked(d, run);
    if live.out.Ok? {
      var ready := ReadyRun(live.run);
      var head := [StatusEntry(ArtifactReady), LogEntry(ArtifactCreated, ArtifactNote, None)];
      assert ready.logs == run.logs + head;
      QuietAppend(run.logs, head);
      var written := ArtifactsPersisted(d, ready);
      if written.out.Ok? {
        var files := FileEntries(d.writeFiles(|run.reviewCalls|).value);
        QuietAppend(ready.logs, files);
        var inReview := InReviewRun(written.run);
        QuietAppend(written.run.logs, [StatusEntry(InReview)]);
        var open := Checked(d, inReview);
        if open.out.Ok? && d.reviewer(|run.reviewCalls|).Ok? {
          var called := CalledRun(d, open.run);
          var back := Checked(d, called);
          if back.out.Ok? {
            ReviewedKeeps(d, menu, run, back.run);
          }
        }
      }
    }
  }

  lemma {:induction false} TurnKeeps(d: StageDefinition, menu: seq<string>, run: RunState, response: AgentResponse)
    requires SpeaksFrom(d, menu) && OnMenu(response, menu) && LoopInv(d, menu, run)
    ensures RoundKept(d, menu, run, Turn(d, run, response))
  {
    hide CountPrompts, CountKind, ReviewHistory, PromptBudget, FeedbackUpTo;
    match response
    case Message(message) => ContinuedKeeps(d, menu, run, message);
    case Artifact(_) => ArtifactTurnKeeps(d, menu, run);
  }

  // ---------- the whole run ----------

  /** The loop, from a run that satisfies the invariant to its end. */
  ghost function Loop(d: StageDefinition, menu: seq<string>, run: RunState, response: AgentResponse): Step<string>
    requires SpeaksFrom(d, menu) && OnMenu(response, menu) && LoopInv(d, menu, run)
    decreases Fuel(d, menu, run)
  {
    TurnKeeps(d, menu, run, response);
    var s := Turn(d, run, response);
    if s.out.Thrown? then Step(s.run, Thrown(s.out.error))
    else
      match s.out.value
      case Finished(result) => Step(s.run, Ok(result))
      case Again(next) => Loop(d, menu, s.run, next)
  }

  function Started(): RunState { WithStatus(InitialRun(), ChatInProgress) }

  function Begun(d: StageDefinition): Step<AgentResponse> {
    var live := Checked(d, Started());
    if live.out.Thrown? then Step(live.run, Thrown(live.out.error)) else Advanced(d, live.run, Begin(1))
  }

  lemma {:induction false} FullBudget(menu: seq<string>, logs: seq<LogEntry>)
    requires forall m :: CountPrompts(logs, m) == 0
    ensures PromptBudget(menu, logs) == PromptCap(menu)
  {
    if menu != [] {
      FullBudget(menu[1..], logs);
    }
  }

  lemma {:induction false} BegunKeeps(d: StageDefinition, menu: seq<string>)
    requires SpeaksFrom(d, menu)
    ensures var s := Begun(d); s.out.Ok? ==> LoopInv(d, menu, s.run) && OnMenu(s.out.value, menu)
  {
    hide CountPrompts, CountKind, ReviewHistory, PromptBudget, FeedbackUpTo;
    var logs := [StatusEntry(ChatInProgress)];
    assert Started().logs == logs;
    QuietCounts(logs);
    FullBudget(menu, logs);
    NoFeedbackYet(d);
  }

  lemma {:induction false} BegunEnds(d: StageDefinition, menu: seq<string>)
    requires SpeaksFrom(d, menu)
    ensures var s := Begun(d); s.out.Thrown? ==> Ended(d, menu, s.run, s.out)
  {
    hide CountPrompts, CountKind, ReviewHistory, PromptBudget, FeedbackUpTo;
    var logs := [StatusEntry(ChatInProgress)];
    assert Started().logs == logs;
    QuietCounts(logs);
    FullBudget(menu, logs);
    NoFeedbackYet(d);
  }

  lemma {:induction false} NoFeedbackYet(d: StageDefinition)
    ensures FeedbackUpTo(d, 0) == []
  {
  }

  ghost function Body(d: StageDefinition, menu: seq<string>): Step<string>
    requires SpeaksFrom(d, menu)
  {
    BegunKeeps(d, menu);
    var s := Begun(d);
    if s.out.Thrown? then Step(s.run, Thrown(s.out.error)) else Loop(d, menu, s.run, s.out.value)
  }

  function CauseOf(error: StageError): RecoveryCause {
    if error.PortPoolExhausted? || ErrorNote(error) == Said(PORT_POOL_MESSAGE) then PortPoolCause else SystemError
  }

  /** What `runStage` makes of the body's end: an error nobody accounted for yet becomes
      a failed run with a recovery record; cancellation passes through untouched. */
  function Accounted<T>(d: StageDefinition, s: Step<T>): Step<T> {
    if s.out.Ok? || s.out.error.Cancelled? || s.run.status in {Blocked, Failed} then s
    else Step(WithRecovery(d.stageId, WithStatus(s.run, Failed), CauseOf(s.out.error), ErrorNote(s.out.error)), s.out)
  }

  ghost function StageOutcome(d: StageDefinition, menu: seq<string>): Step<string>
    requires SpeaksFrom(d, menu)
  {
    Accounted(d, Body(d, menu))
  }

  lemma {:induction false} LoopEnds(d: StageDefinition, menu: seq<string>, run: RunState, response: AgentResponse)
    requires SpeaksFrom(d, menu) && OnMenu(response, menu) && LoopInv(d, menu, run)
    ensures var s := Loop(d, menu, run, response); Ended(d, menu, s.run, s.out)
    decreases Fuel(d, menu, run)
  {
    hide Turn, LoopInv, Fuel, CountKind, ReviewersBriefed, AllRevised, PromptCap;
    TurnKeeps(d, menu, run, response);
    var s := Turn(d, run, response);
    if s.out.Ok? && s.out.value.Again? {
      LoopEnds(d, menu, s.run, s.out.value.response);
    }
  }

  lemma {:induction false} BodyEnds(d: StageDefinition, menu: seq<string>)
    requires SpeaksFrom(d, menu)
    ensures var s := Body(d, menu); Ended(d, menu, s.run, s.out)
  {
    BegunKeeps(d, menu);
    BegunEnds(d, menu);
    var s := Begun(d);
    if s.out.Ok? {
      LoopEnds(d, menu, s.run, s.out.value);
    }
  }

  /** The stage loop ends whatever agent, reviewer and user do: with the agent's messages
      on a list of k texts there are at most 1 + 2k + max(0, maxReviews - 1) agent calls,
      2k questions to the user and max(1, maxReviews) reviews. */
  lemma {:induction false} LoopIsBounded(d: StageDefinition, menu: seq<string>)
    requires SpeaksFrom(d, menu)
    ensures var run := StageOutcome(d, menu).run;
            && |run.agentCalls| <= 1 + 2 * |menu| + Max(0, d.maxReviews - 1)
            && |run.prompts| <= 2 * |menu|
            && |run.reviewCalls| <= Max(1, d.maxReviews)
  {
    BodyEnds(d, menu);
  }

  // ---------- who is told what ----------

  /** The messages among the agent's first n answers. */
  function Messages(d: StageDefinition, n: nat): seq<string> {
    if n == 0 then []
    else
      var last := d.agent(n - 1);
      Messages(d, n - 1) + (if last.Ok? && last.value.Message? then [last.value.message] else [])
  }

  /** How many of the agent's first n answers, none of them thrown, were artifacts. */
  function Artifacts(d: StageDefinition, n: nat): int { n - |Messages(d, n)| }

  /** The k-th agent call (from 0) answers what the agent said before it. The first is a
      `begin`. After a message it brings the user's own reply to that message, which is not
      the sentinel; after an artifact the review agent's own feedback on that artifact, and
      the feedback of every round so far. */
  ghost predicate CallIsTrue(d: StageDefinition, k: nat, call: AgentInput) {
    if k == 0 then call == Begin(1)
    else
      && d.agent(k - 1).Ok?
      && match d.agent(k - 1).value
         case Message(_) =>
           var reply := d.user(|Messages(d, k - 1)|);
           reply.Ok? && reply.value != NO_ANSWER_SENTINEL && call == UserReply(k + 1, reply.value)
         case Artifact(_) =>
           var i := Artifacts(d, k - 1);
           && i >= 0 && d.reviewer(i).Ok? && d.reviewer(i).value.Revise?
           && call == ReviewFeedback(k + 1, d.reviewer(i).value.feedback, FeedbackUpTo(d, i + 1))
  }

  ghost predicate CallsAreTrue(d: StageDefinition, calls: seq<AgentInput>) {
    forall k :: 0 <= k < |calls| ==> CallIsTrue(d, k, calls[k])
  }

  /** What the log holds of the user. */
  function Heard(logs: seq<LogEntry>): seq<Note> {
    if logs == [] then []
    else
      var last := logs[|logs| - 1];
      Heard(logs[..|logs| - 1]) + (if last.kind == UserMessage then [last.message] else [])
  }

  /** The user's first n replies. */
  function Replies(d: StageDefinition, n: nat): seq<Note> {
    if n == 0 then [] else Replies(d, n - 1) + (if d.user(n - 1).Ok? then [Said(d.user(n - 1).value)] else [])
  }

  /** The questions in the log are those put to the user. */
  ghost predicate PromptsLogged(logs: seq<LogEntry>, prompts: seq<string>) {
    forall m :: CountPrompts(logs, m) == multiset(prompts)[m]
  }

  /** The first k answers of the agent have been dealt with: each message was put to the
      user and his reply logged, each artifact reviewed. */
  ghost predicate Dealt(d: StageDefinition, run: RunState, k: nat) {
    && CallsAreTrue(d, run.agentCalls)
    && run.prompts == Messages(d, k)
    && |run.reviewCalls| == Artifacts(d, k)
    && PromptsLogged(run.logs, run.prompts)
    && Heard(run.logs) == Replies(d, |run.prompts|)
    && run.userTurnCount == |run.prompts|
  }

  /** All but the agent's last answer have been dealt with. */
  ghost predicate Conversing(d: StageDefinition, run: RunState, response: AgentResponse) {
    var n := |run.agentCalls|;
    n > 0 && d.agent(n - 1) == Ok(response) && Dealt(d, run, n - 1)
  }

  // ---------- why a run ends ----------

  predicate CancelledNow<T>(d: StageDefinition, run: RunState, out: Outcome<T, StageError>) {
    run.checks > 0 && d.cancelled(run.checks - 1) && out.Thrown? && out.error == Cancelled
  }

  predicate BlockedFor<T>(d: StageDefinition, run: RunState, out: Outcome<T, StageError>, cause: RecoveryCause,
                          summary: Note)
  {
    && out.Thrown? && out.error == BlockedRun(summary)
    && run.status == Blocked
    && run.recoveries == [RecoveryRecord(RecoveryBlocked, cause, d.stageId, summary)]
  }

  /** The body ends on the agent's question. It was put to the user unless he was asked it
      twice before; without a reply the run is blocked. */
  ghost predicate EndsOnQuestion<T>(d: StageDefinition, run: RunState, out: Outcome<T, StageError>, question: string)
    requires run.agentCalls != []
  {
    var earlier := Messages(d, |run.agentCalls| - 1);
    || (CancelledNow(d, run, out) && run.prompts == earlier)
    || if multiset(earlier)[question] >= 2 then
         && run.prompts == earlier
         && BlockedFor(d, run, out, StageFault, RepeatedPrompt(multiset(earlier)[question] + 1))
       else
         && run.prompts == earlier + [question]
         && var reply := d.user(|earlier|);
            if reply.Thrown? then out.Thrown? && out.error == reply.error
            else
              || CancelledNow(d, run, out)
              || (reply.value == NO_ANSWER_SENTINEL && BlockedFor(d, run, out, StageFault, NoAnswerQueued(d.stageId)))
  }

  /** The body ends on the agent's artifact: it could not be stored, or the review agent's
      verdict on it is the last word. */
  ghost predicate EndsOnArtifact(d: StageDefinition, run: RunState, out: Outcome<string, StageError>)
    requires run.agentCalls != []
  {
    var i := Artifacts(d, |run.agentCalls| - 1);
    && i >= 0
    && run.prompts == Messages(d, |run.agentCalls| - 1)
    && if |run.reviewCalls| == i then
         || CancelledNow(d, run, out)
         || (d.persistArtifacts(i).Thrown? && out == Thrown(d.persistArtifacts(i).error))
         || (d.persistArtifacts(i).Ok? && d.writeFiles(i).Thrown? && out == Thrown(d.writeFiles(i).error))
       else
         && |run.reviewCalls| == i + 1 && d.persistArtifacts(i).Ok? && d.writeFiles(i).Ok?
         && var review := d.reviewer(i);
            if review.Thrown? then out == Thrown(review.error)
            else
              || CancelledNow(d, run, out)
              || match review.value
                 case Pass => run.status == Approved && out == d.onApproved
                 case Block(reason) => BlockedFor(d, run, out, ReviewBlock, Said(reason))
                 case Revise(_) =>
                   i + 1 >= d.maxReviews && BlockedFor(d, run, out, ReviewLimit, NoPassAfter(d.maxReviews))
  }

  ghost predicate EndsFor(d: StageDefinition, run: RunState, out: Outcome<string, StageError>) {
    var n := |run.agentCalls|;
    if n == 0 then CancelledNow(d, run, out) && run.prompts == []
    else if d.agent(n - 1).Thrown? then out == Thrown(d.agent(n - 1).error) && run.prompts == Messages(d, n - 1)
    else
      match d.agent(n - 1).value
      case Message(question) => EndsOnQuestion(d, run, out, question)
      case Artifact(_) => EndsOnArtifact(d, run, out)
  }

  /** How the body leaves the run: everybody was told the truth, the user's replies are in
      the log, and it ended for one of the reasons there are. */
  ghost predicate Concluded(d: StageDefinition, run: RunState, out: Outcome<string, StageError>) {
    && CallsAreTrue(d, run.agentCalls)
    && EndsFor(d, run, out)
    && run.userTurnCount <= |run.prompts| && Heard(run.logs) == Replies(d, run.userTurnCount)
  }

  // ---------- the conversation, round by round ----------

  lemma {:induction false} NobodySpeaks(logs: seq<LogEntry>, entries: seq<LogEntry>)
    requires forall i :: 0 <= i < |entries| ==> entries[i].kind != UserMessage
    ensures Heard(logs + entries) == Heard(logs)
    decreases |entries|
  {
    if entries == [] {
      assert logs + entries == logs;
    } else {
      assert (logs + entries)[..|logs + entries| - 1] == logs + entries[..|entries| - 1];
      NobodySpeaks(logs, entries[..|entries| - 1]);
    }
  }

  lemma {:induction false} UserIsHeard(logs: seq<LogEntry>, heard: LogEntry)
    requires heard.kind == UserMessage
    ensures Heard(logs + [heard]) == Heard(logs) + [heard.message]
  {
    assert (logs + [heard])[..|logs|] == logs;
  }

  /** Two runs that differ in status, log, counters and agent calls at most. */
  predicate SameRecord(a: RunState, b: RunState) {
    && a.prompts == b.prompts && a.logs == b.logs && a.userTurnCount == b.userTurnCount
    && a.reviewCalls == b.reviewCalls && a.recoveries == b.recoveries
  }

  lemma {:induction false} OneMoreCall(d: StageDefinition, calls: seq<AgentInput>, input: AgentInput)
    requires CallsAreTrue(d, calls) && CallIsTrue(d, |calls|, input)
    ensures CallsAreTrue(d, calls + [input])
  {
    hide CallIsTrue;
  }

  /** An agent call with everything before it dealt with: the conversation goes on with the
      answer, or the body ends. */
  lemma {:induction false} AgentIsCalled(d: StageDefinition, run: RunState, input: AgentInput)
    requires Dealt(d, run, |run.agentCalls|) && CallIsTrue(d, |run.agentCalls|, input)
    ensures var s := Advanced(d, run, input);
            if s.out.Ok? then Conversing(d, s.run, s.out.value)
            else
              var out: Outcome<string, StageError> := Thrown(s.out.error);
              && SameRecord(s.run, run) && CallsAreTrue(d, s.run.agentCalls)
              && if |s.run.agentCalls| == |run.agentCalls| then CancelledNow(d, s.run, out) else EndsFor(d, s.run, out)
  {
    hide CallIsTrue, CallsAreTrue, PromptsLogged, Heard, Replies, Messages;
    OneMoreCall(d, run.agentCalls, input);
  }

  lemma {:induction false} MessageIsNext(d: StageDefinition, n: nat, message: string)
    requires n > 0 && d.agent(n - 1) == Ok(Message(message))
    ensures Messages(d, n) == Messages(d, n - 1) + [message] && Artifacts(d, n) == Artifacts(d, n - 1)
  {
  }

  lemma {:induction false} ArtifactIsNext(d: StageDefinition, n: nat, artifact: string)
    requires n > 0 && d.agent(n - 1) == Ok(Artifact(artifact))
    ensures Messages(d, n) == Messages(d, n - 1) && Artifacts(d, n) == Artifacts(d, n - 1) + 1
  {
  }

  lemma {:induction false} ReplyIsNext(d: StageDefinition, n: nat)
    requires d.user(n).Ok?
    ensures Replies(d, n + 1) == Replies(d, n) + [Said(d.user(n).value)]
  {
  }

  /** The run while the user's answer is awaited, as the conversation sees it. */
  lemma {:induction false} AskedIsLogged(d: StageDefinition, run: RunState, message: string)
    requires Conversing(d, run, Message(message))
    ensures var asked := AskedRun(run, message);
            && asked.prompts == Messages(d, |run.agentCalls|)
            && PromptsLogged(asked.logs, asked.prompts) && Heard(asked.logs) == Heard(run.logs)
  {
    hide CountPrompts, Heard, ReviewHistory, CountKind, Messages;
    var prompt := LogEntry(StageMessage, Said(message), None);
    MessageIsNext(d, |run.agentCalls|, message);
    PromptAppend(run.logs, [StatusEntry(WaitingForUser)], prompt);
    NobodySpeaks(run.logs, [StatusEntry(WaitingForUser), prompt]);
    assert AskedRun(run, message).logs == run.logs + [StatusEntry(WaitingForUser), prompt];
    assert AskedRun(run, message).logs == run.logs + [StatusEntry(WaitingForUser)] + [prompt];
  }

  lemma {:induction false} AnswerIsHeard(d: StageDefinition, run: RunState, asked: RunState, message: string)
    requires Conversing(d, run, Message(message)) && d.user(|run.prompts|).Ok?
    requires asked == AskedRun(run, message).(checks := asked.checks)
    ensures Dealt(d, AnsweredRun(asked, d.user(|run.prompts|).value), |run.agentCalls|)
  {
    hide CountPrompts, Heard, Replies, ReviewHistory, CountKind, CallsAreTrue;
    var answer := d.user(|run.prompts|).value;
    AskedIsLogged(d, run, message);
    MessageIsNext(d, |run.agentCalls|, message);
    ReplyIsNext(d, |run.prompts|);
    var heard := LogEntry(UserMessage, Said(answer), None);
    UserAppend(asked.logs, heard, StatusEntry(ChatInProgress));
    UserIsHeard(asked.logs, heard);
    NobodySpeaks(asked.logs + [heard], [StatusEntry(ChatInProgress)]);
    hide Messages;
    assert AnsweredRun(asked, answer).logs == asked.logs + [heard] + [StatusEntry(ChatInProgress)];
  }

  /** A blocked question. */
  lemma {:induction false} BlockedConcludes(d: StageDefinition, run: RunState, summary: Note)
    requires run.recoveries == []
    ensures var after := BlockedOnPrompt(d, run, summary);
            var out: Outcome<string, StageError> := Thrown(BlockedRun(summary));
            && BlockedFor(d, after, out, StageFault, summary)
            && after.prompts == run.prompts && after.agentCalls == run.agentCalls && after.reviewCalls == run.reviewCalls
            && after.userTurnCount == run.userTurnCount && Heard(after.logs) == Heard(run.logs)
  {
    hide Heard;
    var tail := [StatusEntry(Blocked), LogEntry(StatusChanged, summary, None)];
    NobodySpeaks(run.logs, tail);
    assert BlockedOnPrompt(d, run, summary).logs == run.logs + tail;
  }

  lemma {:induction false} AskingKeeps(run: RunState, message: string)
    ensures var asked := AskedRun(run, message);
            && asked.agentCalls == run.agentCalls && asked.reviewCalls == run.reviewCalls
            && asked.prompts == run.prompts + [message]
            && asked.userTurnCount == run.userTurnCount && asked.recoveries == run.recoveries
  {
  }

  lemma {:induction false} AnsweringKeeps(run: RunState, answer: string)
    ensures var answered := AnsweredRun(run, answer);
            && answered.agentCalls == run.agentCalls && answered.reviewCalls == run.reviewCalls
            && answered.prompts == run.prompts && answered.recoveries == run.recoveries
  {
  }

  lemma {:induction false} ReplyIsPassedOn(d: StageDefinition, run: RunState, asked: RunState, message: string)
    requires run.recoveries == [] && Conversing(d, run, Message(message))
    requires CountPrompts(run.logs, message) < MAX_IDENTICAL_STAGE_PROMPTS
    requires asked == AskedRun(run, message).(checks := asked.checks)
    requires d.user(|run.prompts|).Ok? && d.user(|run.prompts|).value != NO_ANSWER_SENTINEL
    ensures var answer := d.user(|run.prompts|).value;
            var s := Advanced(d, AnsweredRun(asked, answer), UserReply(|run.agentCalls| + 1, answer));
            if s.out.Ok? then Conversing(d, s.run, s.out.value)
            else Concluded(d, s.run, Thrown(s.out.error))
  {
    hide CountPrompts, Heard, Replies, Messages, CallsAreTrue, Advanced, AskedRun, AnsweredRun;
    var answer := d.user(|run.prompts|).value;
    AskingKeeps(run, message);
    AnsweringKeeps(asked, answer);
    AnswerIsHeard(d, run, asked, message);
    AgentIsCalled(d, AnsweredRun(asked, answer), UserReply(|run.agentCalls| + 1, answer));
  }

  /** A question that is put to the user, and what comes of it. */
  lemma {:induction false} QuestionIsPut(d: StageDefinition, run: RunState, message: string)
    requires run.recoveries == [] && run.stageAgentTurnCount == |run.agentCalls| && Conversing(d, run, Message(message))
    requires CountPrompts(run.logs, message) < MAX_IDENTICAL_STAGE_PROMPTS
    ensures var s := ContinuedAfterUserMessage(d, run, message);
            if s.out.Ok? then Conversing(d, s.run, s.out.value)
            else Concluded(d, s.run, Thrown(s.out.error))
  {
    hide CountPrompts, Heard, Replies, Messages, CallIsTrue, CallsAreTrue, BlockedOnPrompt, Advanced, AskedRun,
         AnsweredRun;
    var asked := AskedRun(run, message);
    AskingKeeps(run, message);
    AskedIsLogged(d, run, message);
    var reply := d.user(|run.prompts|);
    var live := Checked(d, asked);
    if reply.Ok? && live.out.Ok? {
      if reply.value == NO_ANSWER_SENTINEL {
        BlockedConcludes(d, live.run, NoAnswerQueued(d.stageId));
      } else {
        ReplyIsPassedOn(d, run, live.run, message);
      }
    }
  }

  lemma {:induction false} QuestionConverses(d: StageDefinition, run: RunState, message: string)
    requires run.recoveries == [] && run.stageAgentTurnCount == |run.agentCalls| && Conversing(d, run, Message(message))
    ensures var s := ContinuedAfterUserMessage(d, run, message);
            if s.out.Ok? then Conversing(d, s.run, s.out.value)
            else Concluded(d, s.run, Thrown(s.out.error))
  {
    hide CountPrompts, Heard, Replies, Messages, CallIsTrue, CallsAreTrue, BlockedOnPrompt, Advanced, AskedRun,
         AnsweredRun;
    var prior := CountPrompts(run.logs, message);
    if prior >= MAX_IDENTICAL_STAGE_PROMPTS {
      BlockedConcludes(d, run, RepeatedPrompt(prior + 1));
    } else {
      QuestionIsPut(d, run, message);
    }
  }

  /** The run in review: the agent's artifact is stored, its review is the next thing. */
  ghost predicate Reviewing(d: StageDefinition, run: RunState) {
    && run.agentCalls != []
    && var i := Artifacts(d, |run.agentCalls| - 1);
    && d.agent(|run.agentCalls| - 1).Ok? && d.agent(|run.agentCalls| - 1).value.Artifact?
    && CallsAreTrue(d, run.agentCalls)
    && run.prompts == Messages(d, |run.agentCalls| - 1)
    && PromptsLogged(run.logs, run.prompts)
    && Heard(run.logs) == Replies(d, |run.prompts|)
    && run.userTurnCount == |run.prompts|
    && run.recoveries == [] && run.stageAgentTurnCount == |run.agentCalls|
    && |run.reviewCalls| == i + 1 == run.reviewIteration > 0
    && ReviewHistory(run.logs) == FeedbackUpTo(d, i)
    && d.persistArtifacts(i).Ok? && d.writeFiles(i).Ok?
  }

  lemma {:induction false} PassConverses(d: StageDefinition, run: RunState)
    requires Reviewing(d, run) && d.reviewer(run.reviewIteration - 1) == Ok(Pass)
    ensures var s := Reviewed(d, run, Pass);
            !(s.out.Ok? && s.out.value.Again?) && Concluded(d, s.run, FinalOf(s.out))
  {
    hide CallsAreTrue, Heard, Replies, Messages, PromptsLogged, ReviewHistory, FeedbackUpTo;
    var tail := [LogEntry(ReviewPass, ReviewPassedNote, None), StatusEntry(Approved)];
    NobodySpeaks(run.logs, tail);
    assert d.cancelled(run.checks) || Reviewed(d, run, Pass).run.logs == run.logs + tail;
  }

  lemma {:induction false} BlockConverses(d: StageDefinition, run: RunState, reason: string)
    requires Reviewing(d, run) && d.reviewer(run.reviewIteration - 1) == Ok(Block(reason))
    ensures var s := Reviewed(d, run, Block(reason));
            s.out.Thrown? && Concluded(d, s.run, FinalOf(s.out))
  {
    hide CallsAreTrue, Heard, Replies, Messages, PromptsLogged, ReviewHistory, FeedbackUpTo;
    var tail := [LogEntry(StatusChanged, Said(reason), Some(ReviewMark(run.reviewIteration, VerdictBlock))), StatusEntry(Blocked)];
    NobodySpeaks(run.logs, tail);
    assert Reviewed(d, run, Block(reason)).run.logs == run.logs + tail;
  }

  /** The run with a revision logged, whether it is asked for or the limit is reached. */
  lemma {:induction false} RevisionIsLogged(d: StageDefinition, run: RunState, feedback: string, status: StageStatus)
    requires Reviewing(d, run) && d.reviewer(run.reviewIteration - 1) == Ok(Revise(feedback))
    ensures var marked := LogEntry(ReviewRevise, Said(feedback), Some(ReviewMark(run.reviewIteration, VerdictRevise)));
            var logs := WithStatus(WithLog(run, marked), status).logs;
            && PromptsLogged(logs, run.prompts) && Heard(logs) == Heard(run.logs)
            && ReviewHistory(logs) == FeedbackUpTo(d, run.reviewIteration)
  {
    hide CountPrompts, CallsAreTrue, Heard, Replies, Messages, ReviewHistory, FeedbackUpTo, CountKind;
    var marked := LogEntry(ReviewRevise, Said(feedback), Some(ReviewMark(run.reviewIteration, VerdictRevise)));
    MarkedAppend(run.logs, marked, StatusEntry(status));
    NobodySpeaks(run.logs, [marked, StatusEntry(status)]);
    assert run.logs + [marked, StatusEntry(status)] == run.logs + [marked] + [StatusEntry(status)];
    FeedbackStep(d, run.reviewIteration - 1);
  }

  lemma {:induction false} LimitConverses(d: StageDefinition, run: RunState, feedback: string)
    requires Reviewing(d, run) && d.reviewer(run.reviewIteration - 1) == Ok(Revise(feedback))
    requires run.reviewIteration >= d.maxReviews
    ensures var s := RevisionRequestedFrom(d, run, feedback);
            s.out.Thrown? && Concluded(d, s.run, Thrown(s.out.error))
  {
    hide CallsAreTrue, Heard, Replies, Messages, PromptsLogged, ReviewHistory, FeedbackUpTo, Advanced;
    RevisionIsLogged(d, run, feedback, Blocked);
  }

  lemma {:induction false} RevisionConverses(d: StageDefinition, run: RunState, feedback: string)
    requires Reviewing(d, run) && d.reviewer(run.reviewIteration - 1) == Ok(Revise(feedback))
    requires run.reviewIteration < d.maxReviews
    ensures var s := RevisionRequestedFrom(d, run, feedback);
            if s.out.Ok? then Conversing(d, s.run, s.out.value)
            else Concluded(d, s.run, Thrown(s.out.error))
  {
    hide CallsAreTrue, Heard, Replies, Messages, PromptsLogged, ReviewHistory, FeedbackUpTo, Advanced;
    RevisionIsLogged(d, run, feedback, RevisionRequested);
    var n := |run.agentCalls|;
    var marked := LogEntry(ReviewRevise, Said(feedback), Some(ReviewMark(run.reviewIteration, VerdictRevise)));
    var requested := WithStatus(WithLog(run, marked), RevisionRequested);
    ArtifactIsNext(d, n, d.agent(n - 1).value.artifact);
    assert Dealt(d, requested, n);
    AgentIsCalled(d, requested, ReviewFeedback(n + 1, feedback, FeedbackUpTo(d, run.reviewIteration)));
  }

  /** What a round makes of the body, when it ends it. */
  function FinalOf(out: Outcome<Next, StageError>): Outcome<string, StageError> {
    if out.Thrown? then Thrown(out.error) else Ok(if out.value.Finished? then out.value.result else "")
  }

  ghost predicate Converses(d: StageDefinition, s: Step<Next>) {
    if s.out.Ok? && s.out.value.Again? then Conversing(d, s.run, s.out.value.response)
    else Concluded(d, s.run, FinalOf(s.out))
  }

  lemma {:induction false} VerdictConverses(d: StageDefinition, run: RunState)
    requires Reviewing(d, run) && d.reviewer(run.reviewIteration - 1).Ok?
    ensures Converses(d, Reviewed(d, run, d.reviewer(run.reviewIteration - 1).value))
  {
    assert run.reviewIteration > 0;
    hide Reviewing, Concluded, Conversing, RevisionRequestedFrom;
    match d.reviewer(run.reviewIteration - 1).value
    case Pass => PassConverses(d, run);
    case Block(reason) => BlockConverses(d, run, reason);
    case Revise(feedback) =>
      if run.reviewIteration >= d.maxReviews {
        LimitConverses(d, run, feedback);
      } else {
        RevisionConverses(d, run, feedback);
      }
  }

  /** Storing an artifact changes nothing in the conversation. */
  lemma {:induction false} StoringIsQuiet(d: StageDefinition, run: RunState)
    ensures var ready := ReadyRun(run);
            && SameRecord(ready.(logs := run.logs), run) && ready.agentCalls == run.agentCalls
            && (forall m :: CountPrompts(ready.logs, m) == CountPrompts(run.logs, m)) && Heard(ready.logs) == Heard(run.logs)
            && ReviewHistory(ready.logs) == ReviewHistory(run.logs)
    ensures var written := ArtifactsPersisted(d, run).run;
            && SameRecord(written.(logs := run.logs), run) && written.agentCalls == run.agentCalls
            && (forall m :: CountPrompts(written.logs, m) == CountPrompts(run.logs, m)) && Heard(written.logs) == Heard(run.logs)
            && ReviewHistory(written.logs) == ReviewHistory(run.logs)
    ensures var open := InReviewRun(run);
            && SameRecord(open.(logs := run.logs), run) && open.agentCalls == run.agentCalls
            && (forall m :: CountPrompts(open.logs, m) == CountPrompts(run.logs, m)) && Heard(open.logs) == Heard(run.logs)
            && ReviewHistory(open.logs) == ReviewHistory(run.logs)
  {
    hide CountPrompts, Heard, ReviewHistory, CountKind;
    var head := [StatusEntry(ArtifactReady), LogEntry(ArtifactCreated, ArtifactNote, None)];
    assert ReadyRun(run).logs == run.logs + head;
    QuietAppend(run.logs, head);
    NobodySpeaks(run.logs, head);
    QuietAppend(run.logs, [StatusEntry(InReview)]);
    NobodySpeaks(run.logs, [StatusEntry(InReview)]);
    if d.writeFiles(|run.reviewCalls|).Ok? {
      var files := FileEntries(d.writeFiles(|run.reviewCalls|).value);
      QuietAppend(run.logs, files);
      NobodySpeaks(run.logs, files);
    }
  }

  /** An artifact whose round ends before it is reviewed. */
  lemma {:induction false} UnreviewedConcludes(d: StageDefinition, run: RunState, after: RunState, artifact: string,
                                               out: Outcome<string, StageError>)
    requires Conversing(d, run, Artifact(artifact))
    requires after.agentCalls == run.agentCalls && SameRecord(after.(logs := run.logs), run)
             && Heard(after.logs) == Heard(run.logs)
    requires var i := |run.reviewCalls|;
             || CancelledNow(d, after, out)
             || (d.persistArtifacts(i).Thrown? && out == Thrown(d.persistArtifacts(i).error))
             || (d.persistArtifacts(i).Ok? && d.writeFiles(i).Thrown? && out == Thrown(d.writeFiles(i).error))
    ensures Concluded(d, after, out)
  {
    hide CountPrompts, Heard, CallsAreTrue, Messages, Replies, PromptsLogged;
  }

  /** The review call itself. */
  lemma {:induction false} ReviewConverses(d: StageDefinition, run: RunState, open: RunState, artifact: string)
    requires run.recoveries == [] && run.stageAgentTurnCount == |run.agentCalls|
             && Conversing(d, run, Artifact(artifact))
    requires run.reviewIteration == |run.reviewCalls| && ReviewHistory(run.logs) == FeedbackUpTo(d, run.reviewIteration)
    requires open.agentCalls == run.agentCalls && SameRecord(open.(logs := run.logs), run)
             && Heard(open.logs) == Heard(run.logs)
    requires (forall m :: CountPrompts(open.logs, m) == CountPrompts(run.logs, m))
             && ReviewHistory(open.logs) == ReviewHistory(run.logs)
    requires open.reviewIteration == run.reviewIteration + 1 && open.stageAgentTurnCount == run.stageAgentTurnCount
    requires d.persistArtifacts(|run.reviewCalls|).Ok? && d.writeFiles(|run.reviewCalls|).Ok?
    ensures var called := CalledRun(d, open);
            && (d.reviewer(|run.reviewCalls|).Thrown? ==> Concluded(d, called, Thrown(d.reviewer(|run.reviewCalls|).error)))
            && (d.reviewer(|run.reviewCalls|).Ok? ==>
                  var back := Checked(d, called);
                  if back.out.Ok? then Reviewing(d, back.run) else Concluded(d, back.run, Thrown(back.out.error)))
  {
    hide CountPrompts, Heard, ReviewHistory, CallsAreTrue, Messages, Replies, FeedbackUpTo;
  }

  lemma {:induction false} ArtifactConverses(d: StageDefinition, run: RunState, artifact: string)
    requires run.recoveries == [] && run.stageAgentTurnCount == |run.agentCalls|
             && Conversing(d, run, Artifact(artifact))
    requires run.reviewIteration == |run.reviewCalls| && ReviewHistory(run.logs) == FeedbackUpTo(d, run.reviewIteration)
    ensures Converses(d, ArtifactTurn(d, run))
  {
    hide CountPrompts, Heard, ReviewHistory, Conversing, Concluded, FeedbackUpTo, Reviewed, Reviewing, CalledRun;
    var i := |run.reviewCalls|;
    var live := Checked(d, run);
    if live.out.Thrown? {
      UnreviewedConcludes(d, run, live.run, artifact, Thrown(Cancelled));
    } else {
      StoringIsQuiet(d, live.run);
      var ready := ReadyRun(live.run);
      StoringIsQuiet(d, ready);
      var written := ArtifactsPersisted(d, ready);
      if written.out.Thrown? {
        UnreviewedConcludes(d, run, written.run, artifact, Thrown(written.out.error));
      } else {
        StoringIsQuiet(d, written.run);
        var open := Checked(d, InReviewRun(written.run));
        if open.out.Thrown? {
          UnreviewedConcludes(d, run, open.run, artifact, Thrown(Cancelled));
        } else {
          ReviewConverses(d, run, open.run, artifact);
          if d.reviewer(i).Ok? && Checked(d, CalledRun(d, open.run)).out.Ok? {
            ReviewsInOrder(d, open.run);
            VerdictConverses(d, Checked(d, CalledRun(d, open.run)).run);
          }
        }
      }
    }
  }

  lemma {:induction false} ReviewsInOrder(d: StageDefinition, open: RunState)
    ensures Checked(d, CalledRun(d, open)).run.reviewIteration == open.reviewIteration
  {
  }

  lemma {:induction false} TurnConverses(d: StageDefinition, menu: seq<string>, run: RunState, response: AgentResponse)
    requires LoopInv(d, menu, run) && Conversing(d, run, response)
    ensures Converses(d, Turn(d, run, response))
  {
    hide Conversing, Concluded, ContinuedAfterUserMessage, ArtifactTurn, CountKind, PromptBudget, ReviewHistory;
    match response
    case Message(message) => QuestionConverses(d, run, message);
    case Artifact(artifact) => ArtifactConverses(d, run, artifact);
  }

  lemma {:induction false} LoopConverses(d: StageDefinition, menu: seq<string>, run: RunState, response: AgentResponse)
    requires SpeaksFrom(d, menu) && OnMenu(response, menu) && LoopInv(d, menu, run) && Conversing(d, run, response)
    ensures var s := Loop(d, menu, run, response); Concluded(d, s.run, s.out)
    decreases Fuel(d, menu, run)
  {
    hide Turn, LoopInv, Fuel, Conversing, Concluded, Ended;
    TurnKeeps(d, menu, run, response);
    TurnConverses(d, menu, run, response);
    var s := Turn(d, run, response);
    if s.out.Ok? && s.out.value.Again? {
      LoopConverses(d, menu, s.run, s.out.value.response);
    }
  }

  lemma {:induction false} BodyConverses(d: StageDefinition, menu: seq<string>)
    requires SpeaksFrom(d, menu)
    ensures var s := Body(d, menu); Concluded(d, s.run, s.out)
  {
    BegunKeeps(d, menu);
    BegunConverses(d);
    var s := Begun(d);
    hide LoopInv, Conversing, Concluded, Begun;
    if s.out.Ok? {
      LoopConverses(d, menu, s.run, s.out.value);
    }
  }

  lemma {:induction false} NothingDealtYet(d: StageDefinition)
    ensures var run := Started();
            && Dealt(d, run, 0) && run.agentCalls == [] && run.prompts == [] && run.userTurnCount == 0 && run.checks == 0
            && Heard(run.logs) == Replies(d, 0)
  {
    hide CountKind, ReviewHistory;
    var run := Started();
    assert run.logs == [StatusEntry(ChatInProgress)];
    QuietCounts(run.logs);
    NobodySpeaks([], run.logs);
    assert [] + run.logs == run.logs;
    NothingSaid(d);
    hide CountPrompts, Heard, Messages, Replies;
  }

  lemma {:induction false} BegunConverses(d: StageDefinition)
    ensures var s := Begun(d);
            if s.out.Ok? then Conversing(d, s.run, s.out.value) else Concluded(d, s.run, Thrown(s.out.error))
  {
    NothingDealtYet(d);
    hide CountPrompts, Heard, Messages, Replies, Advanced, Started, PromptsLogged, CallsAreTrue;
    assert CallsAreTrue(d, []) by {
      NoCallIsFalse(d);
    }
    if !d.cancelled(0) {
      AgentIsCalled(d, Checked(d, Started()).run, Begin(1));
    }
  }

  lemma {:induction false} NoCallIsFalse(d: StageDefinition)
    ensures CallsAreTrue(d, [])
  {
  }

  lemma {:induction false} NothingSaid(d: StageDefinition)
    ensures Messages(d, 0) == [] && Replies(d, 0) == [] && Heard([]) == []
  {
  }

  /** The agent got the user's own replies and the review agent's own feedback, the user was
      put the agent's own questions in order, and the log holds what he said. */
  ghost predicate IsTold(d: StageDefinition, run: RunState) {
    && CallsAreTrue(d, run.agentCalls)
    && (run.prompts == Messages(d, |run.agentCalls|)
        || (run.agentCalls != [] && run.prompts == Messages(d, |run.agentCalls| - 1)))
    && Heard(run.logs) == Replies(d, run.userTurnCount) && run.userTurnCount <= |run.prompts|
  }

  lemma {:induction false} ConcludedIsTold(d: StageDefinition, run: RunState, out: Outcome<string, StageError>)
    requires Concluded(d, run, out)
    ensures IsTold(d, run)
  {
    hide CallsAreTrue, Heard, Replies, EndsFor;
    PromptsAreTheMessages(d, run, out);
  }

  lemma {:induction false} AccountingKeepsTold(d: StageDefinition, s: Step<string>)
    requires IsTold(d, s.run)
    ensures IsTold(d, Accounted(d, s).run)
    ensures CountKind(Accounted(d, s).run.logs, UserMessage) == CountKind(s.run.logs, UserMessage)
  {
    hide CallsAreTrue, Heard, Replies, Messages, CountKind, CountPrompts, ReviewHistory;
    QuietAppend(s.run.logs, [StatusEntry(Failed)]);
    NobodySpeaks(s.run.logs, [StatusEntry(Failed)]);
  }

  /** Over a whole run the review agent is told the true history, agent and user are told
      the truth as well, and every user turn is in the log. */
  lemma {:induction false} ReviewHistoryIsFaithful(d: StageDefinition, menu: seq<string>)
    requires SpeaksFrom(d, menu)
    ensures var run := StageOutcome(d, menu).run;
            && ReviewersBriefed(d, run.reviewCalls) && IsTold(d, run)
            && run.userTurnCount == |Heard(run.logs)| == CountKind(run.logs, UserMessage)
  {
    BodyEnds(d, menu);
    BodyConverses(d, menu);
    var s := Body(d, menu);
    HeardAreCounted(StageOutcome(d, menu).run.logs);
    hide Body, CallsAreTrue, CountKind, Heard, Concluded, IsTold, ReviewersBriefed;
    ConcludedIsTold(d, s.run, s.out);
    AccountingKeepsTold(d, s);
  }

  lemma {:induction false} HeardAreCounted(logs: seq<LogEntry>)
    ensures |Heard(logs)| == CountKind(logs, UserMessage)
  {
    if logs != [] {
      HeardAreCounted(logs[..|logs| - 1]);
    }
  }

  lemma {:induction false} PromptsAreTheMessages(d: StageDefinition, run: RunState, out: Outcome<string, StageError>)
    requires EndsFor(d, run, out)
    ensures || run.prompts == Messages(d, |run.agentCalls|)
            || (run.agentCalls != [] && run.prompts == Messages(d, |run.agentCalls| - 1))
  {
  }

  /** The error a failed run's record shows, and its cause. */
  predicate RecordsError(record: RecoveryRecord, stageId: string, error: StageError) {
    && record.stageId == stageId
    && record.summary == match error { case Cancelled => Said("workflow_cancelled") case BlockedRun(summary) => summary
                                       case PortPoolExhausted =>
                                         Said(PORT_POOL_MESSAGE) case AdapterFailure(text) => Said(text) }
    && if record.summary == Said(PORT_POOL_MESSAGE) then record.cause == PortPoolCause && record.status == RecoveryBlocked
       else record.cause == SystemError && record.status == RecoveryFailed
  }

  /** Why a stage run ends. The body ends for one of the reasons `EndsFor` lists, each with
      its own status, record and error; the wrapper keeps the error, and the run too unless
      the body threw something it had not blocked on. */
  lemma {:induction false} StageRunEndsFor(d: StageDefinition, menu: seq<string>)
    requires SpeaksFrom(d, menu)
    ensures var body, s := Body(d, menu), StageOutcome(d, menu);
            && EndsFor(d, body.run, body.out) && s.out == body.out
            && if body.out.Ok? || body.out.error == Cancelled || body.run.status == Blocked then s.run == body.run
               else
                 && s.run.status == Failed && |s.run.recoveries| == 1
                 && RecordsError(s.run.recoveries[0], d.stageId, body.out.error)
                 && s.run.agentCalls == body.run.agentCalls && s.run.prompts == body.run.prompts
                 && s.run.reviewCalls == body.run.reviewCalls
  {
    BodyEnds(d, menu);
    BodyConverses(d, menu);
    hide Body, EndsFor, CallsAreTrue, Heard, ReviewersBriefed, AllRevised, CountKind;
  }

  // ---------- when a cancellation is seen ----------

  /** So many checks have been made, and none saw a cancellation: one before the first agent
      call, two around each agent call, one after each of the user's replies, and four in
      each review round. */
  ghost predicate Watched(d: StageDefinition, run: RunState) {
    && run.checks == 1 + 2 * |run.agentCalls| + run.userTurnCount + 4 * |run.reviewCalls|
    && forall i :: 0 <= i < run.checks ==> !d.cancelled(i)
  }

  /** The check that sees a cancellation is the last one, and the run ends cancelled. */
  ghost predicate StopsWhenCancelled<T>(d: StageDefinition, run: RunState, out: Outcome<T, StageError>) {
    forall i :: 0 <= i < run.checks && d.cancelled(i) ==> i == run.checks - 1 && out.Thrown? && out.error == Cancelled
  }

  /** A run that returned was checked twice more, before and after it was approved. */
  ghost predicate WatchedToTheEnd<T>(d: StageDefinition, run: RunState, out: Outcome<T, StageError>) {
    && StopsWhenCancelled(d, run, out)
    && (out.Ok? ==> run.checks == 3 + 2 * |run.agentCalls| + run.userTurnCount + 4 * |run.reviewCalls|)
  }

  lemma {:induction false} AdvancingIsWatched(d: StageDefinition, run: RunState, input: AgentInput)
    requires Watched(d, run)
    ensures var s := Advanced(d, run, input);
            if s.out.Ok? then Watched(d, s.run) else StopsWhenCancelled(d, s.run, s.out)
  {
  }

  lemma {:induction false} AskingIsWatched(d: StageDefinition, run: RunState, message: string)
    requires Watched(d, run)
    ensures var s := ContinuedAfterUserMessage(d, run, message);
            if s.out.Ok? then Watched(d, s.run) else StopsWhenCancelled(d, s.run, s.out)
  {
    hide CountPrompts, Advanced;
    var live := Checked(d, AskedRun(run, message));
    if live.out.Ok? && d.user(|run.prompts|).Ok? {
      var answer := d.user(|run.prompts|).value;
      AdvancingIsWatched(d, AnsweredRun(live.run, answer), UserReply(run.stageAgentTurnCount + 1, answer));
    }
  }

  /** The verdict, with the checks of its round behind it. */
  lemma {:induction false} VerdictIsWatched(d: StageDefinition, run: RunState, review: ReviewResponse)
    requires Watched(d, run)
    ensures var s := Reviewed(d, run, review);
            if s.out.Ok? && s.out.value.Again? then Watched(d, s.run) else WatchedToTheEnd(d, s.run, s.out)
  {
    hide Advanced, ReviewHistory;
    if review.Revise? && run.reviewIteration < d.maxReviews {
      var logged := WithLog(run, LogEntry(ReviewRevise, Said(review.feedback), Some(ReviewMark(run.reviewIteration, VerdictRevise))));
      var requested := WithStatus(logged, RevisionRequested);
      AdvancingIsWatched(d, requested,
                         ReviewFeedback(requested.stageAgentTurnCount + 1, review.feedback,
                                        ReviewHistory(requested.logs)));
    }
  }

  lemma {:induction false} TurnIsWatched(d: StageDefinition, run: RunState, response: AgentResponse)
    requires Watched(d, run)
    ensures var s := Turn(d, run, response);
            if s.out.Ok? && s.out.value.Again? then Watched(d, s.run) else WatchedToTheEnd(d, s.run, s.out)
  {
    hide ContinuedAfterUserMessage, Reviewed, FileEntries, ReviewHistory;
    if response.Message? {
      AskingIsWatched(d, run, response.message);
    } else {
      var live := Checked(d, run);
      var written := ArtifactsPersisted(d, ReadyRun(live.run));
      var open := Checked(d, InReviewRun(written.run));
      var back := Checked(d, CalledRun(d, open.run));
      if live.out.Ok? && written.out.Ok? && open.out.Ok? && d.reviewer(|run.reviewCalls|).Ok? && back.out.Ok? {
        VerdictIsWatched(d, back.run, d.reviewer(|run.reviewCalls|).value);
      }
    }
  }

  lemma {:induction false} LoopIsWatched(d: StageDefinition, menu: seq<string>, run: RunState, response: AgentResponse)
    requires SpeaksFrom(d, menu) && OnMenu(response, menu) && LoopInv(d, menu, run) && Watched(d, run)
    ensures var s := Loop(d, menu, run, response); WatchedToTheEnd(d, s.run, s.out)
    decreases Fuel(d, menu, run)
  {
    hide Turn, LoopInv, Fuel, Watched, Ended;
    TurnKeeps(d, menu, run, response);
    TurnIsWatched(d, run, response);
    var s := Turn(d, run, response);
    if s.out.Ok? && s.out.value.Again? {
      LoopIsWatched(d, menu, s.run, s.out.value.response);
    }
  }

  /** No cancellation goes unnoticed: the run is checked at every place there is to check it,
      and the first check that sees a cancellation is its last step. */
  lemma {:induction false} CancellationEndsTheRun(d: StageDefinition, menu: seq<string>)
    requires SpeaksFrom(d, menu)
    ensures var s := StageOutcome(d, menu);
            && (forall i :: 0 <= i < s.run.checks && d.cancelled(i) ==> i == s.run.checks - 1 && s.out == Thrown(Cancelled))
            && (s.out.Ok? ==> s.run.checks == 3 + 2 * |s.run.agentCalls| + s.run.userTurnCount + 4 * |s.run.reviewCalls|)
  {
    BegunKeeps(d, menu);
    var s := Begun(d);
    BegunIsWatched(d);
    if s.out.Ok? {
      LoopIsWatched(d, menu, s.run, s.out.value);
    }
    hide Begun, Loop, LoopInv;
  }

  lemma {:induction false} BegunIsWatched(d: StageDefinition)
    ensures var s := Begun(d);
            if s.out.Ok? then Watched(d, s.run) else StopsWhenCancelled(d, s.run, s.out)
  {
  }

  // ---------- what the log says ----------

  /** What can be read off a log: the status it was last set to, the files written, and how
      many artifacts and passed reviews it has. */
  datatype Story = Story(status: Option<StageStatus>, files: seq<Note>, artifacts: nat, passes: nat)

  function ToldBy(logs: seq<LogEntry>): Story {
    if logs == [] then Story(None, [], 0, 0) else OneMore(ToldBy(logs[..|logs| - 1]), logs[|logs| - 1])
  }

  function OneMore(story: Story, entry: LogEntry): Story {
    Story(if entry.kind == StatusChanged && entry.message.StatusLine? then Some(entry.message.status) else story.status,
          story.files + (if entry.kind == FileWritten then [entry.message] else []),
          story.artifacts + (if entry.kind == ArtifactCreated then 1 else 0),
          story.passes + (if entry.kind == ReviewPass then 1 else 0))
  }

  lemma {:induction false} EntryIsTold(run: RunState, entry: LogEntry)
    ensures ToldBy(WithLog(run, entry).logs) == OneMore(ToldBy(run.logs), entry)
  {
    assert (run.logs + [entry])[..|run.logs|] == run.logs;
  }

  lemma {:induction false} StatusIsTold(run: RunState, status: StageStatus)
    ensures ToldBy(WithStatus(run, status).logs) == ToldBy(run.logs).(status := Some(status))
  {
    EntryIsTold(run.(status := status), StatusEntry(status));
    assert ToldBy(run.logs).files + [] == ToldBy(run.logs).files;
  }

  function NamesOf(files: seq<ArtifactFile>): seq<Note> {
    seq(|files|, i requires 0 <= i < |files| => FileNote(files[i].name, files[i].path))
  }

  lemma {:induction false} FilesAreTold(logs: seq<LogEntry>, files: seq<ArtifactFile>)
    ensures ToldBy(logs + FileEntries(files)) == ToldBy(logs).(files := ToldBy(logs).files + NamesOf(files))
    decreases |files|
  {
    if files == [] {
      assert logs + FileEntries(files) == logs && ToldBy(logs).files + NamesOf(files) == ToldBy(logs).files;
    } else {
      var front, last := files[..|files| - 1], files[|files| - 1];
      var entry := LogEntry(FileWritten, FileNote(last.name, last.path), None);
      FilesAreTold(logs, front);
      assert logs + FileEntries(files) == logs + FileEntries(front) + [entry];
      assert (logs + FileEntries(front) + [entry])[..|logs + FileEntries(front)|] == logs + FileEntries(front);
      assert ToldBy(logs).files + NamesOf(files) == ToldBy(logs).files + NamesOf(front) + [FileNote(last.name, last.path)];
    }
  }

  /** The files of the first n artifacts. */
  function FilesUpTo(d: StageDefinition, n: nat): seq<Note> {
    if n == 0 then [] else FilesUpTo(d, n - 1) + (if d.writeFiles(n - 1).Ok? then NamesOf(d.writeFiles(n - 1).value) else [])
  }

  /** The log tells the run's status, and of every artifact that was reviewed. */
  ghost predicate LogTells(d: StageDefinition, run: RunState) {
    ToldBy(run.logs) == Story(Some(run.status), FilesUpTo(d, |run.reviewCalls|), |run.reviewCalls|, 0)
  }

  /** How the log of a run that has ended reads: it may tell of one artifact more, with its
      files if they were written, and tells of a pass exactly if the run was approved. */
  ghost predicate LogTellsTheEnd<T>(d: StageDefinition, run: RunState, out: Outcome<T, StageError>) {
    var story, n := ToldBy(run.logs), |run.reviewCalls|;
    && story.status == Some(run.status)
    && (story.artifacts == n || story.artifacts == n + 1)
    && (story.files == FilesUpTo(d, n) || (story.artifacts == n + 1 && story.files == FilesUpTo(d, n + 1)))
    && story.passes == (if run.status == Approved then 1 else 0)
    && (out.Ok? ==> story == Story(Some(Approved), FilesUpTo(d, n), n, 1))
  }

  lemma {:induction false} AdvancingLogsNothing(d: StageDefinition, run: RunState, input: AgentInput)
    ensures var after := Advanced(d, run, input).run;
            after.logs == run.logs && after.status == run.status && after.reviewCalls == run.reviewCalls
  {
  }

  lemma {:induction false} PlainEntry(story: Story, entry: LogEntry)
    requires entry.kind in {StageMessage, UserMessage, ReviewRevise}
             || (entry.kind == StatusChanged && !entry.message.StatusLine?)
    ensures OneMore(story, entry) == story
  {
    assert story.files + [] == story.files;
  }

  lemma {:induction false} BlockIsTold(d: StageDefinition, run: RunState, summary: Note)
    requires !summary.StatusLine?
    ensures ToldBy(BlockedOnPrompt(d, run, summary).logs) == ToldBy(run.logs).(status := Some(Blocked))
  {
    hide ToldBy, OneMore;
    var blocked, entry := WithStatus(run, Blocked), LogEntry(StatusChanged, summary, None);
    StatusIsTold(run, Blocked);
    EntryIsTold(blocked, entry);
    PlainEntry(ToldBy(blocked.logs), entry);
  }

  lemma {:induction false} QuestionIsTold(run: RunState, message: string)
    ensures ToldBy(AskedRun(run, message).logs) == ToldBy(run.logs).(status := Some(WaitingForUser))
  {
    hide ToldBy, OneMore;
    var entry := LogEntry(StageMessage, Said(message), None);
    StatusIsTold(run, WaitingForUser);
    EntryIsTold(WithStatus(run, WaitingForUser), entry);
    PlainEntry(ToldBy(WithStatus(run, WaitingForUser).logs), entry);
  }

  lemma {:induction false} AnswerIsTold(run: RunState, answer: string)
    ensures ToldBy(AnsweredRun(run, answer).logs) == ToldBy(run.logs).(status := Some(ChatInProgress))
  {
    hide ToldBy, OneMore;
    var entry := LogEntry(UserMessage, Said(answer), None);
    var heard := WithLog(run, entry).(userTurnCount := run.userTurnCount + 1);
    EntryIsTold(run, entry);
    PlainEntry(ToldBy(run.logs), entry);
    StatusIsTold(heard, ChatInProgress);
  }

  lemma {:induction false} QuestionKeepsLog(d: StageDefinition, run: RunState, message: string)
    requires LogTells(d, run) && run.status != Approved
    ensures var s := ContinuedAfterUserMessage(d, run, message);
            if s.out.Ok? then LogTells(d, s.run) else LogTellsTheEnd(d, s.run, s.out)
  {
    hide ToldBy, OneMore, CountPrompts, Advanced, FilesUpTo;
    var prior, asked := CountPrompts(run.logs, message), AskedRun(run, message);
    var live := Checked(d, asked);
    QuestionIsTold(run, message);
    BlockIsTold(d, run, RepeatedPrompt(prior + 1));
    BlockIsTold(d, live.run, NoAnswerQueued(d.stageId));
    if d.user(|run.prompts|).Ok? {
      var answer := d.user(|run.prompts|).value;
      AnswerIsTold(live.run, answer);
      AdvancingLogsNothing(d, AnsweredRun(live.run, answer), UserReply(run.stageAgentTurnCount + 1, answer));
    }
  }

  lemma {:induction false} PassIsTold(run: RunState)
    ensures ToldBy(WithStatus(WithLog(run, LogEntry(ReviewPass, ReviewPassedNote, None)), Approved).logs)
         == Story(Some(Approved), ToldBy(run.logs).files, ToldBy(run.logs).artifacts, ToldBy(run.logs).passes + 1)
  {
    var entry := LogEntry(ReviewPass, ReviewPassedNote, None);
    EntryIsTold(run, entry);
    StatusIsTold(WithLog(run, entry), Approved);
    assert ToldBy(run.logs).files + [] == ToldBy(run.logs).files;
    hide ToldBy;
  }

  lemma {:induction false} VerdictIsTold(run: RunState, entry: LogEntry, status: StageStatus)
    requires entry.kind == ReviewRevise || (entry.kind == StatusChanged && !entry.message.StatusLine?)
    ensures ToldBy(WithStatus(WithLog(run, entry), status).logs) == ToldBy(run.logs).(status := Some(status))
  {
    hide ToldBy, OneMore;
    EntryIsTold(run, entry);
    PlainEntry(ToldBy(run.logs), entry);
    StatusIsTold(WithLog(run, entry), status);
  }

  lemma {:induction false} VerdictKeepsLog(d: StageDefinition, run: RunState, review: ReviewResponse)
    requires LogTells(d, run) && run.status != Approved
    ensures var s := Reviewed(d, run, review);
            if s.out.Ok? && s.out.value.Again? then LogTells(d, s.run) else LogTellsTheEnd(d, s.run, s.out)
  {
    hide ToldBy, OneMore, Advanced, FilesUpTo, ReviewHistory;
    match review
    case Pass =>
      PassIsTold(Checked(d, run).run);
    case Block(reason) =>
      VerdictIsTold(run, LogEntry(StatusChanged, Said(reason), Some(ReviewMark(run.reviewIteration, VerdictBlock))),
                    Blocked);
    case Revise(feedback) =>
      var entry := LogEntry(ReviewRevise, Said(feedback), Some(ReviewMark(run.reviewIteration, VerdictRevise)));
      VerdictIsTold(run, entry, Blocked);
      VerdictIsTold(run, entry, RevisionRequested);
      var requested := WithStatus(WithLog(run, entry), RevisionRequested);
      AdvancingLogsNothing(d, requested,
                           ReviewFeedback(requested.stageAgentTurnCount + 1, feedback, ReviewHistory(requested.logs)));
  }

  lemma {:induction false} ReadinessIsTold(run: RunState)
    ensures ToldBy(ReadyRun(run).logs)
         == Story(Some(ArtifactReady), ToldBy(run.logs).files, ToldBy(run.logs).artifacts + 1, ToldBy(run.logs).passes)
  {
    var entry := LogEntry(ArtifactCreated, ArtifactNote, None);
    StatusIsTold(run, ArtifactReady);
    EntryIsTold(WithStatus(run, ArtifactReady), entry);
    assert ToldBy(run.logs).files + [] == ToldBy(run.logs).files;
    hide ToldBy;
  }

  lemma {:induction false} NextFiles(d: StageDefinition, n: nat)
    requires d.writeFiles(n).Ok?
    ensures FilesUpTo(d, n + 1) == FilesUpTo(d, n) + NamesOf(d.writeFiles(n).value)
  {
  }

  lemma {:induction false} ArtifactKeepsLog(d: StageDefinition, run: RunState)
    requires LogTells(d, run) && run.status != Approved
    ensures var s := ArtifactTurn(d, run);
            if s.out.Ok? && s.out.value.Again? then LogTells(d, s.run) else LogTellsTheEnd(d, s.run, s.out)
  {
    hide ToldBy, OneMore, FilesUpTo, NamesOf, FileEntries, ReviewHistory, Reviewed;
    var n, live := |run.reviewCalls|, Checked(d, run);
    var ready := ReadyRun(live.run);
    ReadinessIsTold(live.run);
    if d.writeFiles(n).Ok? {
      NextFiles(d, n);
      FilesAreTold(ready.logs, d.writeFiles(n).value);
    }
    var written := ArtifactsPersisted(d, ready);
    if live.out.Ok? && written.out.Ok? {
      StatusIsTold(written.run, InReview);
      var open := Checked(d, InReviewRun(written.run));
      var back := Checked(d, CalledRun(d, open.run));
      if open.out.Ok? && d.reviewer(n).Ok? && back.out.Ok? {
        VerdictKeepsLog(d, back.run, d.reviewer(n).value);
      }
    }
  }

  lemma {:induction false} LoopKeepsLog(d: StageDefinition, menu: seq<string>, run: RunState, response: AgentResponse)
    requires SpeaksFrom(d, menu) && OnMenu(response, menu) && LoopInv(d, menu, run) && LogTells(d, run)
    ensures var s := Loop(d, menu, run, response); LogTellsTheEnd(d, s.run, s.out)
    decreases Fuel(d, menu, run)
  {
    TurnKeeps(d, menu, run, response);
    assert run.status != Approved;
    hide ContinuedAfterUserMessage, ArtifactTurn, LoopInv, Fuel, LogTells, Ended;
    if response.Message? {
      QuestionKeepsLog(d, run, response.message);
    } else {
      ArtifactKeepsLog(d, run);
    }
    assert EndIsTold(d, Turn(d, run, response));
    hide Turn;
    var s := Turn(d, run, response);
    if s.out.Ok? && s.out.value.Again? {
      LoopKeepsLog(d, menu, s.run, s.out.value.response);
    }
  }

  ghost predicate EndIsTold(d: StageDefinition, s: Step<Next>) {
    if s.out.Ok? && s.out.value.Again? then LogTells(d, s.run) else LogTellsTheEnd(d, s.run, s.out)
  }

  lemma {:induction false} BegunIsTold(d: StageDefinition)
    ensures var s := Begun(d);
            s.run.status == ChatInProgress && if s.out.Ok? then LogTells(d, s.run) else LogTellsTheEnd(d, s.run, s.out)
  {
    StatusIsTold(InitialRun(), ChatInProgress);
    hide ToldBy;
    assert ToldBy([]) == Story(None, [], 0, 0) by {
      NothingIsTold();
    }
  }

  lemma {:induction false} NothingIsTold()
    ensures ToldBy([]) == Story(None, [], 0, 0)
  {
  }

  /** Whatever happens, the last status in the log is the run's; each artifact is in it once,
      with the files written for it; and a run that returns has exactly one passed review. */
  lemma {:induction false} LogTellsTheRun(d: StageDefinition, menu: seq<string>)
    requires SpeaksFrom(d, menu)
    ensures var s := StageOutcome(d, menu);
            var story, n := ToldBy(s.run.logs), |s.run.reviewCalls|;
            && story.status == Some(s.run.status)
            && (story.artifacts == n || story.artifacts == n + 1)
            && (story.files == FilesUpTo(d, n) || (story.artifacts == n + 1 && story.files == FilesUpTo(d, n + 1)))
            && (s.out.Ok? ==> story == Story(Some(Approved), FilesUpTo(d, n), n, 1))
  {
    BegunKeeps(d, menu);
    BegunIsTold(d);
    var begun := Begun(d);
    hide Begun, LoopInv, LogTells, ToldBy, OneMore, FilesUpTo;
    if begun.out.Ok? {
      LoopKeepsLog(d, menu, begun.run, begun.out.value);
    }
    hide Loop;
    StatusIsTold(Body(d, menu).run, Failed);
  }

  // ---------- nobody there to answer ----------

  /** The place of the j-th message among the agent's answers. */
  lemma {:induction false} AskedAt(d: StageDefinition, n: nat, j: nat) returns (k: nat)
    requires j < |Messages(d, n)|
    ensures k < n && |Messages(d, k)| == j && d.agent(k).Ok? && d.agent(k).value.Message?
  {
    if j < |Messages(d, n - 1)| {
      k := AskedAt(d, n - 1, j);
    } else {
      k := n - 1;
    }
  }

  lemma {:induction false} AnsweredBefore(d: StageDefinition, calls: seq<AgentInput>, j: nat)
    requires calls != [] && CallsAreTrue(d, calls) && j < |Messages(d, |calls| - 1)|
    ensures d.user(j).Ok? && d.user(j).value != NO_ANSWER_SENTINEL
  {
    var k := AskedAt(d, |calls| - 1, j);
    assert CallIsTrue(d, k + 1, calls[k + 1]);
  }

  /** The sentinel as a reply ends the run, blocked on the question unless it is cancelled
      just then; no reply but the last can be one. */
  lemma {:induction false} SentinelBlocksTheRun(d: StageDefinition, menu: seq<string>)
    requires SpeaksFrom(d, menu)
    ensures var s := StageOutcome(d, menu);
            var last := |s.run.prompts| - 1;
            && (forall j: nat :: j < last ==> d.user(j).Ok? && d.user(j).value != NO_ANSWER_SENTINEL)
            && (last >= 0 && d.user(last) == Ok(NO_ANSWER_SENTINEL) ==>
                  || CancelledNow(d, s.run, s.out)
                  || BlockedFor(d, s.run, s.out, StageFault, NoAnswerQueued(d.stageId)))
  {
    StageRunEndsFor(d, menu);
    BodyConverses(d, menu);
    var body := Body(d, menu);
    hide Body, StageOutcome;
    QuestionsAnswered(d, body.run, body.out);
  }

  lemma {:induction false} QuestionsAnswered(d: StageDefinition, run: RunState, out: Outcome<string, StageError>)
    requires CallsAreTrue(d, run.agentCalls) && EndsFor(d, run, out)
    ensures var last := |run.prompts| - 1;
            && (forall j: nat :: j < last ==> d.user(j).Ok? && d.user(j).value != NO_ANSWER_SENTINEL)
            && (last >= 0 && d.user(last) == Ok(NO_ANSWER_SENTINEL) ==>
                  CancelledNow(d, run, out) || BlockedFor(d, run, out, StageFault, NoAnswerQueued(d.stageId)))
  {
    hide CallsAreTrue, Messages;
    if run.agentCalls != [] {
      var earlier := Messages(d, |run.agentCalls| - 1);
      forall j: nat | j < |earlier| ensures d.user(j).Ok? && d.user(j).value != NO_ANSWER_SENTINEL {
        AnsweredBefore(d, run.agentCalls, j);
      }
    }
  }

  /** How a stage run can end.
      - It returns only when approved, by the review agent passing the last round after
        revising all the earlier ones; there is then no recovery record.
      - A throw other than cancellation leaves status blocked or failed and exactly one
        recovery record, of this stage.
      - An approved run is returned exactly when `onApproved` succeeds and the last
        cancellation check is negative; otherwise it ends in cancellation. */
  lemma {:induction false} ExitAccounting(d: StageDefinition, menu: seq<string>)
    requires SpeaksFrom(d, menu)
    ensures var s := StageOutcome(d, menu);
            && (s.out.Ok? ==>
                  && s.run.status == Approved && s.run.recoveries == []
                  && s.run.reviewIteration > 0
                  && AllRevised(d, s.run.reviewIteration - 1)
                  && d.reviewer(s.run.reviewIteration - 1) == Ok(Pass)
                  && s.run.stageAgentTurnCount == s.run.userTurnCount + s.run.reviewIteration)
            && (s.out.Thrown? && s.out.error != Cancelled ==>
                  && s.run.status in {Blocked, Failed}
                  && |s.run.recoveries| == 1
                  && s.run.recoveries[0].stageId == d.stageId)
            && (s.out == Thrown(Cancelled) ==> s.run.recoveries == [] && s.run.status !in {Blocked, Failed})
            && (s.run.status == Approved ==>
                  && s.run.checks > 0
                  && (s.out.Ok? <==> d.onApproved.Ok? && !d.cancelled(s.run.checks - 1))
                  && (s.out.Thrown? ==> s.out.error == Cancelled))
  {
    BodyEnds(d, menu);
  }

  /** The body ended in an exhausted port pool it did not block on: the wrapper's own case. */
  ghost predicate EndsInPortPool(d: StageDefinition, menu: seq<string>)
    requires SpeaksFrom(d, menu)
  {
    var s := Body(d, menu);
    s.out.Thrown? && s.run.status !in {Blocked, Failed} && CauseOf(s.out.error) == PortPoolCause
  }

  /** The record's own status says "failed" exactly when the run's does, unless the body
      threw an exhausted port pool: that run is failed while its record says blocked. */
  lemma {:induction false} RecordAgreesUnlessPortPool(d: StageDefinition, menu: seq<string>)
    requires SpeaksFrom(d, menu)
    ensures var run := StageOutcome(d, menu).run;
            run.recoveries != [] ==>
              ((run.status == Failed <==> run.recoveries[0].status == RecoveryFailed) <==> !EndsInPortPool(d, menu))
    ensures EndsInPortPool(d, menu) ==> StageOutcome(d, menu).run.recoveries != []
  {
    BodyEnds(d, menu);
  }

  /** A stage whose agent finds no free port the first time it is called. */
  lemma {:induction false} NoPortLeavesABlockedRecord(d: StageDefinition, menu: seq<string>)
    requires SpeaksFrom(d, menu) && d.agent(0) == Thrown(PortPoolExhausted) && forall k: nat :: !d.cancelled(k)
    ensures var run := StageOutcome(d, menu).run;
            run.status == Failed && |run.recoveries| == 1 && run.recoveries[0].status == RecoveryBlocked
  {
    assert Begun(d).out == Thrown(PortPoolExhausted);
  }

  /** A stage whose first artifact passes its first review, with nothing going wrong, returns. */
  lemma {:induction false} PassingStageReturns(d: StageDefinition, menu: seq<string>)
    requires SpeaksFrom(d, menu) && forall k: nat :: !d.cancelled(k)
    requires d.agent(0).Ok? && d.agent(0).value.Artifact? && d.reviewer(0) == Ok(Pass)
    requires d.persistArtifacts(0).Ok? && d.writeFiles(0).Ok? && d.onApproved.Ok?
    ensures StageOutcome(d, menu).out == d.onApproved
  {
    BegunKeeps(d, menu);
    var s := Begun(d);
    assert s.out == d.agent(0) && s.run.reviewCalls == [];
    hide LoopInv, Begun, Fuel;
    assert Turn(d, s.run, s.out.value) == ArtifactTurn(d, s.run);
    assert ArtifactTurn(d, s.run).out == Ok(Finished(d.onApproved.value));
  }

  /** The review limit is the cause exactly of running out of reviews: it takes
      max(1, maxReviews) rounds, and the review agent asked for a revision in each. */
  lemma {:induction false} ReviewLimitMeansAllRevised(d: StageDefinition, menu: seq<string>)
    requires SpeaksFrom(d, menu)
    requires var run := StageOutcome(d, menu).run; run.recoveries != [] && run.recoveries[0].cause == ReviewLimit
    ensures var run := StageOutcome(d, menu).run;
            |run.reviewCalls| == Max(1, d.maxReviews) && AllRevised(d, |run.reviewCalls|)
  {
    BodyEnds(d, menu);
  }

  // ---------- why the vocabulary must be finite ----------

  /** The run after n rounds, as long as no round ends it. */
  function Rounds(d: StageDefinition, n: nat): Step<Next> {
    if n == 0 then
      var s := Begun(d);
      Step(s.run, if s.out.Thrown? then Thrown(s.out.error) else Ok(Again(s.out.value)))
    else
      var s := Rounds(d, n - 1);
      if s.out.Ok? && s.out.value.Again? then Turn(d, s.run, s.out.value.response) else s
  }

  /** The identical-prompt cap alone does not end the loop: an agent that words every
      question differently keeps a patient user busy for any number of rounds. */
  lemma {:induction false} FreshQuestionsNeverEnd(d: StageDefinition, n: nat)
    requires forall k: nat :: d.agent(k) == Ok(Message(Decimal(k)))
    requires forall k: nat :: d.user(k).Ok? && d.user(k).value != NO_ANSWER_SENTINEL
    requires forall k: nat :: !d.cancelled(k)
    ensures Rounds(d, n).out == Ok(Again(Message(Decimal(n))))
    ensures |Rounds(d, n).run.agentCalls| == n + 1 && |Rounds(d, n).run.prompts| == n
    ensures forall k: nat :: k >= n ==> CountPrompts(Rounds(d, n).run.logs, Decimal(k)) == 0
  {
    hide CountPrompts, Decimal;
    if n == 0 {
      QuietCounts([StatusEntry(ChatInProgress)]);
      assert Rounds(d, 0).run.logs == [StatusEntry(ChatInProgress)];
    } else {
      FreshQuestionsNeverEnd(d, n - 1);
      var before := Rounds(d, n - 1).run;
      var after := Rounds(d, n).run;
      FreshQuestionAnswered(d, n - 1, before);
      forall k: nat | k >= n ensures CountPrompts(after.logs, Decimal(k)) == 0 {
        if Decimal(k) == Decimal(n - 1) {
          DecimalInjective(k, n - 1);
        }
      }
    }
  }

  lemma {:induction false} FreshQuestionAnswered(d: StageDefinition, n: nat, run: RunState)
    requires forall k: nat :: d.agent(k) == Ok(Message(Decimal(k)))
    requires forall k: nat :: d.user(k).Ok? && d.user(k).value != NO_ANSWER_SENTINEL
    requires forall k: nat :: !d.cancelled(k)
    requires |run.agentCalls| == n + 1 && |run.prompts| == n && CountPrompts(run.logs, Decimal(n)) == 0
    ensures var s := ContinuedAfterUserMessage(d, run, Decimal(n));
            && s.out == Ok(Message(Decimal(n + 1)))
            && |s.run.agentCalls| == n + 2 && |s.run.prompts| == n + 1
            && forall m :: CountPrompts(s.run.logs, m) == CountPrompts(run.logs, m) + (if m == Decimal(n) then 1 else 0)
  {
    hide CountPrompts, Decimal, ReviewHistory, CountKind;
    var question := LogEntry(StageMessage, Said(Decimal(n)), None);
    var answer := LogEntry(UserMessage, Said(d.user(n).value), None);
    PromptAppend(run.logs, [StatusEntry(WaitingForUser)], question);
    UserAppend(run.logs + [StatusEntry(WaitingForUser)] + [question], answer, StatusEntry(ChatInProgress));
  }

  // ---------- the mutable run ----------

  class StageRun {
    const d: StageDefinition
    var status: StageStatus
    var userTurnCount: nat
    var stageAgentTurnCount: nat
    var reviewIteration: nat
    var logs: seq<LogEntry>
    var recoveries: seq<RecoveryRecord>
    var agentCalls: seq<AgentInput>
    var reviewCalls: seq<ReviewContext>
    var prompts: seq<string>
    var checks: nat

    constructor (d: StageDefinition)
      ensures this.d == d && Snapshot() == InitialRun()
    {
      this.d := d;
      status, userTurnCount, stageAgentTurnCount, reviewIteration := NotStarted, 0, 0, 0;
      logs, recoveries, agentCalls, reviewCalls, prompts, checks := [], [], [], [], [], 0;
    }

    function Snapshot(): RunState
      reads this
    {
      RunState(status, userTurnCount, stageAgentTurnCount, reviewIteration, logs, recoveries, agentCalls, reviewCalls, prompts, checks)
    }

    method PushLog(entry: LogEntry)
      modifies this`logs
      ensures Snapshot() == WithLog(old(Snapshot()), entry)
    {
      logs := logs + [entry];
    }

    method SetStatus(newStatus: StageStatus)
      modifies this`status, this`logs
      ensures Snapshot() == WithStatus(old(Snapshot()), newStatus)
    {
      status := newStatus;
      PushLog(StatusEntry(newStatus));
    }

    method AssertNotCancelled() returns (r: Reply<()>)
      modifies this`checks
      ensures Step(Snapshot(), r) == Checked(d, old(Snapshot()))
    {
      r := if d.cancelled(checks) then Thrown(Cancelled) else Ok(());
      checks := checks + 1;
    }

    method RecordStageBlocked(cause: RecoveryCause, summary: Note)
      modifies this`recoveries
      ensures Snapshot() == WithRecovery(d.stageId, old(Snapshot()), cause, summary)
    {
      var recordStatus := if cause == SystemError then RecoveryFailed else RecoveryBlocked;
      recoveries := recoveries + [RecoveryRecord(recordStatus, cause, d.stageId, summary)];
    }

    method AdvanceStageAgent(input: AgentInput) returns (r: Reply<AgentResponse>)
      modifies this
      ensures Step(Snapshot(), r) == Advanced(d, old(Snapshot()), input)
    {
      var live := AssertNotCancelled();
      if live.Thrown? { return Thrown(live.error); }
      r := d.agent(|agentCalls|);
      agentCalls := agentCalls + [input];
      if r.Thrown? { return; }
      live := AssertNotCancelled();
      if live.Thrown? { return Thrown(live.error); }
      stageAgentTurnCount := stageAgentTurnCount + 1;
    }

    method CountPriorIdenticalPrompts(message: string) returns (n: nat)
      ensures n == CountPrompts(logs, message)
    {
      n := 0;
      for i := 0 to |logs|
        invariant n == CountPrompts(logs[..i], message)
      {
        assert logs[..i + 1][..i] == logs[..i];
        if logs[i].kind == StageMessage && logs[i].message == Said(message) {
          n := n + 1;
        }
      }
      assert logs[..|logs|] == logs;
    }

    method BlockOnPrompt(summary: Note)
      modifies this
      ensures Snapshot() == BlockedOnPrompt(d, old(Snapshot()), summary)
    {
      SetStatus(Blocked);
      PushLog(LogEntry(StatusChanged, summary, None));
      RecordStageBlocked(StageFault, summary);
    }

    method ContinueAfterUserMessage(message: string) returns (r: Reply<AgentResponse>)
      modifies this
      ensures Step(Snapshot(), r) == ContinuedAfterUserMessage(d, old(Snapshot()), message)
    {
      hide CountPrompts, BlockedOnPrompt, Advanced;
      var prior := CountPriorIdenticalPrompts(message);
      if prior >= MAX_IDENTICAL_STAGE_PROMPTS {
        BlockOnPrompt(RepeatedPrompt(prior + 1));
        return Thrown(BlockedRun(RepeatedPrompt(prior + 1)));
      }
      SetStatus(WaitingForUser);
      PushLog(LogEntry(StageMessage, Said(message), None));
      var answer := d.user(|prompts|);
      prompts := prompts + [message];
      if answer.Thrown? { return Thrown(answer.error); }
      var live := AssertNotCancelled();
      if live.Thrown? { return Thrown(live.error); }
      if answer.value == NO_ANSWER_SENTINEL {
        BlockOnPrompt(NoAnswerQueued(d.stageId));
        return Thrown(BlockedRun(NoAnswerQueued(d.stageId)));
      }
      PushLog(LogEntry(UserMessage, Said(answer.value), None));
      userTurnCount := userTurnCount + 1;
      SetStatus(ChatInProgress);
      r := AdvanceStageAgent(UserReply(stageAgentTurnCount + 1, answer.value));
    }

    method RequestRevision(feedback: string) returns (r: Reply<AgentResponse>)
      modifies this
      ensures Step(Snapshot(), r) == RevisionRequestedFrom(d, old(Snapshot()), feedback)
    {
      PushLog(LogEntry(ReviewRevise, Said(feedback), Some(ReviewMark(reviewIteration, VerdictRevise))));
      if reviewIteration >= d.maxReviews {
        SetStatus(Blocked);
        RecordStageBlocked(ReviewLimit, NoPassAfter(d.maxReviews));
        return Thrown(BlockedRun(NoPassAfter(d.maxReviews)));
      }
      SetStatus(RevisionRequested);
      r := AdvanceStageAgent(ReviewFeedback(stageAgentTurnCount + 1, feedback, ReviewHistory(logs)));
    }

    method HandleReviewOutcome(review: ReviewResponse) returns (r: Reply<Next>)
      modifies this
      ensures Step(Snapshot(), r) == Reviewed(d, old(Snapshot()), review)
    {
      match review
      case Pass =>
        var live := AssertNotCancelled();
        if live.Thrown? { return Thrown(live.error); }
        PushLog(LogEntry(ReviewPass, ReviewPassedNote, None));
        SetStatus(Approved);
        if d.onApproved.Thrown? { return Thrown(d.onApproved.error); }
        live := AssertNotCancelled();
        if live.Thrown? { return Thrown(live.error); }
        return Ok(Finished(d.onApproved.value));
      case Block(reason) =>
        PushLog(LogEntry(StatusChanged, Said(reason), Some(ReviewMark(reviewIteration, VerdictBlock))));
        SetStatus(Blocked);
        RecordStageBlocked(ReviewBlock, Said(reason));
        return Thrown(BlockedRun(Said(reason)));
      case Revise(feedback) =>
        var response := RequestRevision(feedback);
        if response.Thrown? { return Thrown(response.error); }
        return Ok(Again(response.value));
    }

    method PersistRunArtifacts() returns (r: Reply<()>)
      modifies this
      ensures Step(Snapshot(), r) == ArtifactsPersisted(d, old(Snapshot()))
      ensures reviewCalls == old(reviewCalls)
    {
      var contents := d.persistArtifacts(|reviewCalls|);
      if contents.Thrown? { return Thrown(contents.error); }
      r := AssertNotCancelled();
      if r.Thrown? { return; }
      var written := d.writeFiles(|reviewCalls|);
      if written.Thrown? { return Thrown(written.error); }
      var files := written.value;
      ghost var before := Snapshot();
      for i := 0 to |files|
        invariant Snapshot() == before.(logs := before.logs + FileEntries(files[..i]))
      {
        assert FileEntries(files[..i + 1]) == FileEntries(files[..i]) + [LogEntry(FileWritten, FileNote(files[i].name, files[i].path), None)];
        PushLog(LogEntry(FileWritten, FileNote(files[i].name, files[i].path), None));
      }
      assert files[..|files|] == files;
    }

    /** `definition.reviewer.review`, with the context of this round. */
    method CallReviewer() returns (r: Reply<ReviewResponse>)
      modifies this
      ensures r == d.reviewer(|old(reviewCalls)|) && Snapshot() == CalledRun(d, old(Snapshot()))
    {
      r := d.reviewer(|reviewCalls|);
      var context := ReviewContext(reviewIteration, d.maxReviews, reviewIteration >= d.maxReviews, ReviewHistory(logs));
      reviewCalls := reviewCalls + [context];
    }

    method ReviewArtifact() returns (r: Reply<Next>)
      modifies this
      ensures Step(Snapshot(), r) == ArtifactTurn(d, old(Snapshot()))
    {
      hide Reviewed, ArtifactsPersisted, CalledRun;
      var live := AssertNotCancelled();
      if live.Thrown? { return Thrown(live.error); }
      SetStatus(ArtifactReady);
      PushLog(LogEntry(ArtifactCreated, ArtifactNote, None));
      live := PersistRunArtifacts();
      if live.Thrown? { return Thrown(live.error); }
      SetStatus(InReview);
      reviewIteration := reviewIteration + 1;
      live := AssertNotCancelled();
      if live.Thrown? { return Thrown(live.error); }
      var review := CallReviewer();
      if review.Thrown? { return Thrown(review.error); }
      live := AssertNotCancelled();
      if live.Thrown? { return Thrown(live.error); }
      r := HandleReviewOutcome(review.value);
    }

    /** `runStageBody`: the `while (true)` loop, which ends because the fuel runs out. */
    method RunStageBody(ghost menu: seq<string>) returns (r: Reply<string>)
      requires SpeaksFrom(d, menu) && Snapshot() == Started()
      modifies this
      ensures Step(Snapshot(), r) == Body(d, menu)
    {
      BegunKeeps(d, menu);
      var live := AssertNotCancelled();
      if live.Thrown? { return Thrown(live.error); }
      var first := AdvanceStageAgent(Begin(stageAgentTurnCount + 1));
      if first.Thrown? { return Thrown(first.error); }
      var response := first.value;
      while true
        invariant LoopInv(d, menu, Snapshot()) && OnMenu(response, menu)
        invariant Body(d, menu) == Loop(d, menu, Snapshot(), response)
        decreases Fuel(d, menu, Snapshot())
      {
        TurnKeeps(d, menu, Snapshot(), response);
        if response.Message? {
          var next := ContinueAfterUserMessage(response.message);
          if next.Thrown? { return Thrown(next.error); }
          response := next.value;
        } else {
          var next := ReviewArtifact();
          if next.Thrown? { return Thrown(next.error); }
          if next.value.Finished? { return Ok(next.value.result); }
          response := next.value.response;
        }
      }
    }

    method RunStage(ghost menu: seq<string>) returns (r: Reply<string>)
      requires SpeaksFrom(d, menu) && Snapshot() == InitialRun()
      modifies this
      ensures Step(Snapshot(), r) == StageOutcome(d, menu)
    {
      SetStatus(ChatInProgress);
      r := RunStageBody(menu);
      if r.Thrown? && r.error != Cancelled && status != Blocked && status != Failed {
        SetStatus(Failed);
        RecordStageBlocked(CauseOf(r.error), ErrorNote(r.error));
      }
    }
  }
}
