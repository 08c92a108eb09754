/** Model of the user review gate around a stage (`stageWithUserReview.ts`): run the stage,
    ask the user to approve or revise, and run it again with the feedback.

    Each round's stage run is the one of module StageRuntime, with its own oracles. The
    user gives finitely many replies at the gates; after the last one the non-interactive
    sentinel comes back. */
module StageUserReview {
  import opened Arithmetic
  import opened Outcomes
  import opened Text
  import SR = StageRuntime

  // ---------- replies ----------

  function FoldCase(c: char): char { if 'A' <= c <= 'Z' then c - 'A' + 'a' else c }

  function Fold(s: string): string { seq(|s|, i requires 0 <= i < |s| => FoldCase(s[i])) }

  const APPROVE := "approve"
  const REVISE := "revise:"

  datatype Decision = Unanswered | Approve | Revise(feedback: string) | Unrecognised

  /** What one reply to the gate prompt means. */
  function Decide(reply: string): Decision {
    var text := Trim(reply);
    if text == NO_ANSWER_SENTINEL then Unanswered
    else if Fold(text) == APPROVE then Approve
    else if |text| >= 7 && Fold(text[..7]) == REVISE then Revise(Trim(TrimStart(text[7..])))
    else Unrecognised
  }

  lemma {:induction false} TrimEndKeepsFront(p: string, t: string)
    requires p != "" && !IsSpace(p[|p| - 1])
    ensures TrimEnd(p + t) == p + TrimEnd(t)
  {
    if t == "" {
      assert p + t == p;
    } else if IsSpace(t[|t| - 1]) {
      assert (p + t)[..|p + t| - 1] == p + t[..|t| - 1];
      TrimEndKeepsFront(p, t[..|t| - 1]);
    }
  }

  lemma {:induction false} TrimsCommute(t: string)
    ensures TrimStart(TrimEnd(t)) == TrimEnd(TrimStart(t))
    decreases |t|
  {
    if t != "" && IsSpace(t[0]) {
      TrimsCommute(t[1..]);
      TrimEndOfSpaced(t);
    } else if t != "" {
      TrimEndKeepsFront([t[0]], t[1..]);
      assert [t[0]] + t[1..] == t;
    }
  }

  lemma {:induction false} TrimEndOfSpaced(t: string)
    requires t != "" && IsSpace(t[0])
    ensures TrimStart(TrimEnd(t)) == TrimStart(TrimEnd(t[1..]))
    decreases |t|
  {
    if IsSpace(t[|t| - 1]) {
      if |t| > 1 {
        assert t[..|t| - 1][1..] == t[1..][..|t| - 2];
        TrimEndOfSpaced(t[..|t| - 1]);
      }
    } else {
      assert TrimEnd(t) == t && TrimEnd(t[1..]) == t[1..];
    }
  }

  lemma {:induction false} TrimFeedback(t: string)
    ensures Trim(TrimStart(TrimEnd(t))) == Trim(t)
  {
    TrimsCommute(t);
    TrimStartTwice(t);
    TrimHasNoEdges(t);
    var u := Trim(t);
    assert TrimStart(u) == u && TrimEnd(u) == u;
  }

  lemma {:induction false} TrimStartTwice(t: string)
    ensures TrimStart(TrimStart(t)) == TrimStart(t)
  {
    TrimStartEdge(t);
  }

  /** The word in lower case letters, or with some of them written as capitals. */
  ghost predicate Spells(word: string, lower: string) {
    && |word| == |lower|
    && forall i :: 0 <= i < |lower| ==>
         word[i] == lower[i] || ('a' <= lower[i] <= 'z' && word[i] == lower[i] - 'a' + 'A')
  }

  lemma {:induction false} FoldingSpells(word: string, lower: string)
    requires forall i :: 0 <= i < |lower| ==> !('A' <= lower[i] <= 'Z')
    ensures Fold(word) == lower <==> Spells(word, lower)
  {
    if Fold(word) == lower {
      assert |Fold(word)| == |word|;
      forall i | 0 <= i < |word|
        ensures word[i] == lower[i] || ('a' <= lower[i] <= 'z' && word[i] == lower[i] - 'a' + 'A')
      {
        assert Fold(word)[i] == FoldCase(word[i]) == lower[i];
      }
    }
  }

  /** A reply approves exactly if it is the word itself, in any case of letters and with
      space around it. */
  lemma {:induction false} ApprovalIsHeard(reply: string)
    ensures Decide(reply) == Approve <==> Spells(Trim(reply), "approve")
    ensures Decide(reply) == Unanswered <==> Trim(reply) == NO_ANSWER_SENTINEL
    ensures Decide(reply) == Unrecognised <==>
              && Trim(reply) != NO_ANSWER_SENTINEL && !Spells(Trim(reply), "approve")
              && !(|Trim(reply)| >= 7 && Spells(Trim(reply)[..7], "revise:"))
  {
    var text := Trim(reply);
    FoldingSpells(text, APPROVE);
    if |text| >= 7 {
      FoldingSpells(text[..7], REVISE);
    }
    assert Fold(NO_ANSWER_SENTINEL)[0] == '\0';
    hide Fold, Trim;
  }

  /** The feedback of a "revise:" reply, in any case of letters, is the trimmed rest. */
  lemma {:induction false} RevisionIsHeard(word: string, rest: string)
    requires Spells(word, "revise:")
    ensures Decide(word + rest) == Revise(Trim(rest))
  {
    FoldingSpells(word, REVISE);
    var t := word + rest;
    ReviseWord(word);
    assert t[0] == word[0];
    assert TrimStart(t) == t;
    TrimEndKeepsFront(word, rest);
    var u := word + TrimEnd(rest);
    assert Trim(t) == u && u[..7] == word && u[7..] == TrimEnd(rest);
    TrimFeedback(rest);
    NotTheOthers(u);
    hide Fold, Trim, TrimEnd, TrimStart;
  }

  lemma {:induction false} ReviseWord(word: string)
    requires Fold(word) == REVISE
    ensures |word| == 7 && FoldCase(word[0]) == 'r' && word[6] == ':' && !IsSpace(word[0]) && !IsSpace(word[6])
  {
    assert |Fold(word)| == |word|;
    assert Fold(word)[0] == FoldCase(word[0]) && Fold(word)[6] == FoldCase(word[6]);
    assert REVISE[0] == 'r' && REVISE[6] == ':';
  }

  lemma {:induction false} NotTheOthers(u: string)
    requires u != "" && FoldCase(u[0]) == 'r'
    ensures u != NO_ANSWER_SENTINEL && Fold(u) != APPROVE
  {
    assert Fold(u)[0] == FoldCase(u[0]);
    assert APPROVE[0] == 'a' && NO_ANSWER_SENTINEL[0] == '\0';
  }

  // ---------- the gate ----------

  datatype GateEnd = GateWaits | GateFails(error: SR.StageError) | GateApproves | GateRevises(feedback: string)

  /** How a gate ends, and the replies left after it. */
  datatype Gate = Gate(end: GateEnd, rest: seq<SR.Reply<string>>)

  function PassGate(replies: seq<SR.Reply<string>>): Gate {
    if replies == [] then Gate(GateWaits, [])
    else if replies[0].Thrown? then Gate(GateFails(replies[0].error), replies[1..])
    else
      match Decide(replies[0].value)
      case Unanswered => Gate(GateWaits, replies[1..])
      case Approve => Gate(GateApproves, replies[1..])
      case Revise(feedback) => Gate(GateRevises(feedback), replies[1..])
      case Unrecognised => PassGate(replies[1..])
  }

  /** A gate takes the first reply that is not unrecognised, whatever it is, and leaves the
      replies after it; without one it waits. */
  lemma {:induction false} GateEndsAtTheFirstDecision(replies: seq<SR.Reply<string>>, i: nat)
    requires i <= |replies| && forall j :: 0 <= j < i ==> replies[j].Ok? && Decide(replies[j].value) == Unrecognised
    ensures i == |replies| ==> PassGate(replies) == Gate(GateWaits, [])
    ensures i < |replies| && !(replies[i].Ok? && Decide(replies[i].value) == Unrecognised) ==>
              && PassGate(replies).rest == replies[i + 1..]
              && (replies[i].Thrown? ==> PassGate(replies).end == GateFails(replies[i].error))
              && (replies[i].Ok? ==>
                   var decision := Decide(replies[i].value);
                   && (decision == Unanswered ==> PassGate(replies).end == GateWaits)
                   && (decision == Approve ==> PassGate(replies).end == GateApproves)
                   && (decision.Revise? ==> PassGate(replies).end == GateRevises(decision.feedback)))
  {
    hide Decide;
    if i > 0 {
      assert forall j :: 0 <= j < i - 1 ==> replies[1..][j] == replies[j + 1];
      GateEndsAtTheFirstDecision(replies[1..], i - 1);
    }
  }

  // ---------- the rounds ----------

  /** The part of a stage's state the gate touches; the rest is `history`. */
  datatype ReviewState = ReviewState(
    history: string,
    clarificationCount: int,
    maxClarifications: int,
    pendingRevisionFeedback: Option<string>,
    userReviewRound: nat)

  /** `stage(r)` and `menu(r)` are round r's stage and the messages its agent draws from;
      `finish` gives the state that run ends with. */
  datatype Options = Options(
    baseRunId: string,
    maxRounds: int,
    buildFreshState: (Option<string>, nat) -> ReviewState,
    stage: nat -> SR.StageDefinition,
    menu: nat -> seq<string>,
    finish: (nat, ReviewState) -> ReviewState,
    onUserApprove: nat -> SR.Reply<string>)

  ghost predicate Bounded(o: Options) {
    forall r: nat :: SR.SpeaksFrom(o.stage(r), o.menu(r))
  }

  /** Options whose stages each have an agent with finitely many messages. */
  type BoundedOptions = o: Options | Bounded(o)
    ghost witness OneRound(ReviewState("", 0, 0, None, 0))

  datatype StageCall = StageCall(runId: string, initial: ReviewState, run: SR.RunState)

  datatype GateError =
    | StageThrew(error: SR.StageError)
    | WaitingAtGate
    | AskThrew(error: SR.StageError)
    | RoundsExhausted
    | ApproveThrew(error: SR.StageError)

  datatype Session = Session(calls: seq<StageCall>, out: Outcome<string, GateError>)

  function RunId(o: Options, round: nat): string {
    if round == 0 then o.baseRunId else o.baseRunId + "-rev" + Decimal(round)
  }

  /** `buildInitialReviewState`. */
  function InitialReviewState(o: Options, prior: Option<ReviewState>, feedback: Option<string>, round: nat): ReviewState
  {
    if prior.None? then o.buildFreshState(feedback, round)
    else prior.value.(pendingRevisionFeedback := feedback, userReviewRound := round, clarificationCount := prior.value.maxClarifications)
  }

  /** A run whose gate nobody answers: blocked, logged, and recorded. */
  function BlockedAtGate(d: SR.StageDefinition, run: SR.RunState): SR.RunState {
    var summary := SR.GateUnanswered(d.stageId);
    SR.WithRecovery(d.stageId, SR.WithLog(run.(status := SR.Blocked), SR.LogEntry(SR.StatusChanged, summary, None)), SR.StageFault, summary)
  }

  ghost function StageStep(o: BoundedOptions, round: nat): SR.Step<string>
  {
    SR.StageOutcome(o.stage(round), o.menu(round))
  }

  predicate GoesOn(o: Options, round: nat, s: SR.Step<string>, end: GateEnd) {
    s.out.Ok? && end.GateRevises? && round + 1 <= o.maxRounds
  }

  /** The record of a round's stage run; nobody at the gate blocks it. */
  function CallOf(o: Options, round: nat, initial: ReviewState, s: SR.Step<string>, end: GateEnd): StageCall {
    StageCall(RunId(o, round), initial, if s.out.Ok? && end.GateWaits? then BlockedAtGate(o.stage(round), s.run) else s.run)
  }

  /** How the session ends when this round is its last. */
  function LastOut(o: Options, round: nat, artifact: SR.Reply<string>, end: GateEnd): Outcome<string, GateError> {
    if artifact.Thrown? then Thrown(StageThrew(artifact.error))
    else
      match end
      case GateWaits => Thrown(WaitingAtGate)
      case GateFails(error) => Thrown(AskThrew(error))
      case GateApproves =>
        var value := o.onUserApprove(round);
        if value.Thrown? then Thrown(ApproveThrew(value.error)) else Ok(value.value)
      case GateRevises(_) => Thrown(RoundsExhausted)
  }

  function LastRound(o: Options, round: nat, initial: ReviewState, s: SR.Step<string>, end: GateEnd): Session {
    Session([CallOf(o, round, initial, s, end)], LastOut(o, round, s.out, end))
  }

  /** The rounds from `round` on. */
  ghost function Rounds(o: BoundedOptions, round: nat, prior: Option<ReviewState>, feedback: Option<string>,
                        replies: seq<SR.Reply<string>>): Session
    decreases if round <= o.maxRounds then o.maxRounds - round + 1 else 0
  {
    var initial := InitialReviewState(o, prior, feedback, round);
    var s := StageStep(o, round);
    var gate := PassGate(replies);
    if GoesOn(o, round, s, gate.end) then
      var later := Rounds(o, round + 1, Some(o.finish(round, initial)), Some(gate.end.feedback), gate.rest);
      Session([CallOf(o, round, initial, s, gate.end)] + later.calls, later.out)
    else LastRound(o, round, initial, s, gate.end)
  }

  /** `runStageWithUserReview`. */
  ghost function Reviewed(o: BoundedOptions, replies: seq<SR.Reply<string>>): Session
  {
    Rounds(o, 0, None, None, replies)
  }

  // ---------- how many stage runs, under which ids ----------

  lemma {:induction false} RunIdsDiffer(o: Options, a: nat, b: nat)
    requires a != b
    ensures RunId(o, a) != RunId(o, b)
  {
    var base := o.baseRunId;
    assert |base + "-rev" + Decimal(a)| > |base| && |base + "-rev" + Decimal(b)| > |base|;
    if a != 0 && b != 0 && RunId(o, a) == RunId(o, b) {
      var p := base + "-rev";
      assert (p + Decimal(a))[|p|..] == Decimal(a) && (p + Decimal(b))[|p|..] == Decimal(b);
      DecimalInjective(a, b);
    }
  }

  /** As many calls as rounds can follow `round`, each under its round's id. */
  ghost predicate Numbered(o: Options, round: nat, calls: seq<StageCall>) {
    && 1 <= |calls| <= Max(0, o.maxRounds - round) + 1
    && forall i :: 0 <= i < |calls| ==> calls[i].runId == RunId(o, round + i)
  }

  lemma {:induction false} NumberedOneMore(o: Options, round: nat, call: StageCall, later: seq<StageCall>)
    requires Numbered(o, round + 1, later) && round + 1 <= o.maxRounds && call.runId == RunId(o, round)
    ensures Numbered(o, round, [call] + later)
  {
    hide RunId;
    var calls := [call] + later;
    forall i | 0 <= i < |calls| ensures calls[i].runId == RunId(o, round + i) {
      assert i > 0 ==> calls[i] == later[i - 1] && calls[i].runId == RunId(o, round + 1 + (i - 1));
    }
  }

  lemma {:induction false} LastIsNumbered(o: Options, round: nat, initial: ReviewState, s: SR.Step<string>,
                                          end: GateEnd)
    ensures Numbered(o, round, LastRound(o, round, initial, s, end).calls)
  {
    hide RunId, BlockedAtGate;
  }

  lemma {:induction false} RoundsAreNumbered(o: BoundedOptions, round: nat, prior: Option<ReviewState>,
                                             feedback: Option<string>, replies: seq<SR.Reply<string>>)
    ensures Numbered(o, round, Rounds(o, round, prior, feedback, replies).calls)
    decreases if round <= o.maxRounds then o.maxRounds - round + 1 else 0
  {
    hide StageStep, RunId, LastRound, InitialReviewState, PassGate, Numbered;
    var initial := InitialReviewState(o, prior, feedback, round);
    var gate := PassGate(replies);
    if GoesOn(o, round, StageStep(o, round), gate.end) {
      RoundsAreNumbered(o, round + 1, Some(o.finish(round, initial)), Some(gate.end.feedback), gate.rest);
      var later := Rounds(o, round + 1, Some(o.finish(round, initial)), Some(gate.end.feedback), gate.rest);
      NumberedOneMore(o, round, CallOf(o, round, initial, StageStep(o, round), gate.end), later.calls);
    } else {
      LastIsNumbered(o, round, initial, StageStep(o, round), gate.end);
    }
  }

  /** At most maxUserReviewRounds + 1 stage runs (one at least), no two under the same id. */
  lemma {:induction false} StageRunsAreBounded(o: BoundedOptions, replies: seq<SR.Reply<string>>)
    ensures var calls := Reviewed(o, replies).calls;
            && 1 <= |calls| <= Max(0, o.maxRounds) + 1
            && calls[0].runId == o.baseRunId
            && (forall i :: 0 < i < |calls| ==> calls[i].runId == o.baseRunId + "-rev" + Decimal(i))
            && forall i, j :: 0 <= i < j < |calls| ==> calls[i].runId != calls[j].runId
  {
    RoundsAreNumbered(o, 0, None, None, replies);
    var calls := Reviewed(o, replies).calls;
    forall i, j | 0 <= i < j < |calls| ensures calls[i].runId != calls[j].runId {
      RunIdsDiffer(o, i, j);
    }
  }

  // ---------- what a round is told ----------

  /** What the user asked to be revised, reply by reply. */
  function Revisions(replies: seq<SR.Reply<string>>): seq<string> {
    if replies == [] then []
    else
      (if replies[0].Ok? && Decide(replies[0].value).Revise? then [Decide(replies[0].value).feedback] else []) + Revisions(replies[1..])
  }

  /** A gate that revises takes the first revision asked for and leaves the others. */
  lemma {:induction false} GateTakesARevision(replies: seq<SR.Reply<string>>)
    requires PassGate(replies).end.GateRevises?
    ensures Revisions(replies) == [PassGate(replies).end.feedback] + Revisions(PassGate(replies).rest)
  {
    hide Decide;
    if replies != [] && replies[0].Ok? && Decide(replies[0].value) == Unrecognised {
      GateTakesARevision(replies[1..]);
    }
  }

  /** A run starts from the state the one before it ended with, but for the revision that is
      pending, its round number, and that there are no clarifications left. */
  ghost predicate TakesOver(initial: ReviewState, end: ReviewState, feedback: string, round: nat) {
    && initial.history == end.history && initial.maxClarifications == end.maxClarifications
    && initial.pendingRevisionFeedback == Some(feedback)
    && initial.userReviewRound == round
    && initial.clarificationCount == initial.maxClarifications
  }

  /** Each later run takes over from the one before: the i-th of them with the i-th revision
      the user asked for. */
  ghost predicate CarriedOver(o: Options, round: nat, calls: seq<StageCall>, revisions: seq<string>) {
    && |calls| <= |revisions| + 1
    && forall i :: 0 < i < |calls| ==>
         TakesOver(calls[i].initial, o.finish(round + i - 1, calls[i - 1].initial), revisions[i - 1], round + i)
  }

  lemma {:induction false} PriorStateIsTakenOver(o: Options, prior: ReviewState, feedback: string, round: nat)
    ensures TakesOver(InitialReviewState(o, Some(prior), Some(feedback), round), prior, feedback, round)
  {
  }

  lemma {:induction false} RoundsCarryOver(o: BoundedOptions, round: nat, prior: Option<ReviewState>,
                                           feedback: Option<string>, replies: seq<SR.Reply<string>>)
    ensures CarriedOver(o, round, Rounds(o, round, prior, feedback, replies).calls, Revisions(replies))
    ensures Rounds(o, round, prior, feedback, replies).calls != []
    ensures Rounds(o, round, prior, feedback, replies).calls[0].initial == InitialReviewState(o, prior, feedback, round)
    decreases if round <= o.maxRounds then o.maxRounds - round + 1 else 0
  {
    hide StageStep, RunId, BlockedAtGate, PassGate, Revisions, InitialReviewState, TakesOver;
    var initial := InitialReviewState(o, prior, feedback, round);
    var gate := PassGate(replies);
    if GoesOn(o, round, StageStep(o, round), gate.end) {
      GateTakesARevision(replies);
      RoundsCarryOver(o, round + 1, Some(o.finish(round, initial)), Some(gate.end.feedback), gate.rest);
      var later := Rounds(o, round + 1, Some(o.finish(round, initial)), Some(gate.end.feedback), gate.rest).calls;
      PriorStateIsTakenOver(o, o.finish(round, initial), gate.end.feedback, round + 1);
      CarryOneMore(o, round, Rounds(o, round, prior, feedback, replies).calls, later, gate.end.feedback,
                   Revisions(gate.rest));
    }
  }

  lemma {:induction false} CarryOneMore(o: Options, round: nat, calls: seq<StageCall>, later: seq<StageCall>,
                                        feedback: string, rest: seq<string>)
    requires calls != [] && later != [] && calls[1..] == later && CarriedOver(o, round + 1, later, rest)
    requires TakesOver(later[0].initial, o.finish(round, calls[0].initial), feedback, round + 1)
    ensures CarriedOver(o, round, calls, [feedback] + rest)
  {
    hide TakesOver;
    var revisions := [feedback] + rest;
    forall i | 0 < i < |calls|
      ensures TakesOver(calls[i].initial, o.finish(round + i - 1, calls[i - 1].initial), revisions[i - 1], round + i)
    {
      assert i > 1 ==> calls[i] == later[i - 1] && calls[i - 1] == later[i - 2] && revisions[i - 1] == rest[i - 2];
    }
  }

  /** The whole session hands state and feedback on. */
  lemma {:induction false} StateIsCarriedOver(o: BoundedOptions, replies: seq<SR.Reply<string>>)
    ensures CarriedOver(o, 0, Reviewed(o, replies).calls, Revisions(replies))
    ensures Reviewed(o, replies).calls != [] && Reviewed(o, replies).calls[0].initial == o.buildFreshState(None, 0)
  {
    RoundsCarryOver(o, 0, None, None, replies);
  }

  // ---------- how a session ends ----------

  /** A run that was approved and left no recovery record. */
  predicate Clean(run: SR.RunState) { run.status == SR.Approved && run.recoveries == [] }

  /** How the last run stands, by the way the session ended. */
  ghost predicate LastRunFits(last: SR.RunState, out: Outcome<string, GateError>) {
    if out.Ok? then Clean(last)
    else
      match out.error
      case StageThrew(error) =>
        if error == SR.Cancelled then last.recoveries == [] && last.status !in {SR.Blocked, SR.Failed}
        else last.status in {SR.Blocked, SR.Failed} && |last.recoveries| == 1
      case WaitingAtGate =>
        last.status == SR.Blocked && |last.recoveries| == 1 && last.recoveries[0].cause == SR.StageFault
      case AskThrew(_) => Clean(last)
      case RoundsExhausted => Clean(last)
      case ApproveThrew(_) => Clean(last)
  }

  /** The replies left after the gates of i rounds. */
  function RepliesAfter(replies: seq<SR.Reply<string>>, i: nat): seq<SR.Reply<string>>
    decreases i
  {
    if i == 0 then replies else RepliesAfter(PassGate(replies).rest, i - 1)
  }

  /** How the gate of the i-th round from here ends, if its stage run returns. */
  function GateAfter(replies: seq<SR.Reply<string>>, i: nat): GateEnd { PassGate(RepliesAfter(replies, i)).end }

  /** The i-th round from `round` has an approved artifact which the user wants revised. */
  ghost predicate Revised(o: BoundedOptions, round: nat, replies: seq<SR.Reply<string>>, i: nat)
  {
    SR.StageOutcome(o.stage(round + i), o.menu(round + i)).out.Ok? && GateAfter(replies, i).GateRevises?
  }

  /** The run of a round is that of its stage; if nobody answers its gate it is blocked, with
      a log entry and a record that say so. */
  ghost predicate RunIs(run: SR.RunState, stageId: string, s: SR.Step<string>, end: GateEnd) {
    if s.out.Ok? && end == GateWaits then
      run == s.run.(
               status := SR.Blocked,
               logs := s.run.logs + [SR.LogEntry(SR.StatusChanged, SR.GateUnanswered(stageId), None)],
               recoveries := s.run.recoveries
                 + [SR.RecoveryRecord(SR.RecoveryBlocked, SR.StageFault, stageId, SR.GateUnanswered(stageId))])
    else run == s.run
  }

  /** What the session returns or throws, by how the last stage and its gate ended. */
  ghost predicate SaysHowItEnded(o: Options, round: nat, stage: SR.Reply<string>, end: GateEnd,
                                 out: Outcome<string, GateError>)
  {
    && (forall e :: out == Thrown(StageThrew(e)) <==> stage == Thrown(e))
    && (forall v :: out == Ok(v) <==> stage.Ok? && end == GateApproves && o.onUserApprove(round) == Ok(v))
    && (forall e :: out == Thrown(ApproveThrew(e)) <==>
                      stage.Ok? && end == GateApproves && o.onUserApprove(round) == Thrown(e))
    && (forall e :: out == Thrown(AskThrew(e)) <==> stage.Ok? && end == GateFails(e))
    && (out == Thrown(WaitingAtGate) <==> stage.Ok? && end == GateWaits)
    && (out == Thrown(RoundsExhausted) <==> stage.Ok? && end.GateRevises?)
  }

  /** Each run is that of its own round. */
  ghost predicate RunsAre(o: BoundedOptions, round: nat, replies: seq<SR.Reply<string>>, calls: seq<StageCall>) {
    forall i :: 0 <= i < |calls| ==>
      RunIs(calls[i].run, o.stage(round + i).stageId,
            SR.StageOutcome(o.stage(round + i), o.menu(round + i)), GateAfter(replies, i))
  }

  lemma {:induction false} RunsOneMore(o: BoundedOptions, round: nat, replies: seq<SR.Reply<string>>, call: StageCall,
                                       later: seq<StageCall>)
    requires RunsAre(o, round + 1, PassGate(replies).rest, later)
    requires RunIs(call.run, o.stage(round).stageId, StageStep(o, round), PassGate(replies).end)
    ensures RunsAre(o, round, replies, [call] + later)
  {
    hide SR.StageOutcome, PassGate, RunIs;
    var calls := [call] + later;
    assert GateAfter(replies, 0) == PassGate(replies).end;
    forall i | 0 <= i < |calls|
      ensures RunIs(calls[i].run, o.stage(round + i).stageId, StageStep(o, round + i), GateAfter(replies, i))
    {
      if i > 0 {
        RevisedShifts(o, round, replies, i);
        assert calls[i] == later[i - 1] && round + i == round + 1 + (i - 1);
      }
    }
  }

  lemma {:induction false} LastOutSaysHow(o: Options, round: nat, stage: SR.Reply<string>, end: GateEnd)
    ensures SaysHowItEnded(o, round, stage, end, LastOut(o, round, stage, end))
  {
  }

  lemma {:induction false} CallRuns(o: Options, round: nat, initial: ReviewState, s: SR.Step<string>, end: GateEnd)
    ensures RunIs(CallOf(o, round, initial, s, end).run, o.stage(round).stageId, s, end)
  {
    hide RunId;
  }

  /** The last round is the first that is not revised, or the one that uses up the rounds;
      it decides how the session ends. */
  ghost predicate EndsWith(o: BoundedOptions, round: nat, replies: seq<SR.Reply<string>>, s: Session)
  {
    var n := |s.calls|;
    && n > 0
    && (forall i :: 0 <= i < n - 1 ==> Revised(o, round, replies, i) && round + i + 1 <= o.maxRounds)
    && !(Revised(o, round, replies, n - 1) && round + n <= o.maxRounds)
    && SaysHowItEnded(o, round + n - 1, SR.StageOutcome(o.stage(round + n - 1), o.menu(round + n - 1)).out,
                      GateAfter(replies, n - 1), s.out)
    && RunsAre(o, round, replies, s.calls)
  }

  /** How the runs stand. */
  ghost predicate Ends(s: Session) {
    && s.calls != []
    && (forall i :: 0 <= i < |s.calls| - 1 ==> Clean(s.calls[i].run))
    && LastRunFits(s.calls[|s.calls| - 1].run, s.out)
  }

  lemma {:induction false} StageStepEnds(o: BoundedOptions, round: nat)
    ensures var s := StageStep(o, round);
            && (s.out.Ok? ==> Clean(s.run) && BlockedAtGate(o.stage(round), s.run).status == SR.Blocked
                              && |BlockedAtGate(o.stage(round), s.run).recoveries| == 1
                              && BlockedAtGate(o.stage(round), s.run).recoveries[0].cause == SR.StageFault)
            && (s.out.Thrown? ==> LastRunFits(s.run, Thrown(StageThrew(s.out.error))))
  {
    SR.ExitAccounting(o.stage(round), o.menu(round));
    hide SR.StageOutcome, SR.AllRevised;
  }

  lemma {:induction false} RoundsEnd(o: BoundedOptions, round: nat, prior: Option<ReviewState>,
                                     feedback: Option<string>,
                                     replies: seq<SR.Reply<string>>)
    ensures Ends(Rounds(o, round, prior, feedback, replies))
    decreases if round <= o.maxRounds then o.maxRounds - round + 1 else 0
  {
    hide StageStep, PassGate, LastRound, Ends, Clean, LastRunFits, BlockedAtGate, RunId, InitialReviewState;
    var initial := InitialReviewState(o, prior, feedback, round);
    var gate := PassGate(replies);
    if GoesOn(o, round, StageStep(o, round), gate.end) {
      RoundsEnd(o, round + 1, Some(o.finish(round, initial)), Some(gate.end.feedback), gate.rest);
      var later := Rounds(o, round + 1, Some(o.finish(round, initial)), Some(gate.end.feedback), gate.rest);
      ApprovedIsClean(o, round);
      EndsOneMore(CallOf(o, round, initial, StageStep(o, round), gate.end), later);
    } else {
      LastRoundEnds(o, round, initial, gate.end);
    }
  }

  lemma {:induction false} ApprovedIsClean(o: BoundedOptions, round: nat)
    requires StageStep(o, round).out.Ok?
    ensures Clean(StageStep(o, round).run)
  {
    StageStepEnds(o, round);
    hide StageStep, BlockedAtGate, LastRunFits, Clean;
  }

  lemma {:induction false} LastRoundEnds(o: BoundedOptions, round: nat, initial: ReviewState, end: GateEnd)
    requires !GoesOn(o, round, StageStep(o, round), end)
    ensures Ends(LastRound(o, round, initial, StageStep(o, round), end))
  {
    StageStepEnds(o, round);
    hide StageStep, RunId, BlockedAtGate, Clean;
    var s := StageStep(o, round);
    if s.out.Ok? {
      hide LastRunFits;
      ApprovedRoundEnds(o, round, initial, s, end);
    }
  }

  /** A round whose stage run was approved and which is the last one. */
  lemma {:induction false} ApprovedRoundEnds(o: Options, round: nat, initial: ReviewState, s: SR.Step<string>,
                                             end: GateEnd)
    requires s.out.Ok? && Clean(s.run) && !GoesOn(o, round, s, end)
    requires var run := BlockedAtGate(o.stage(round), s.run);
             run.status == SR.Blocked && |run.recoveries| == 1 && run.recoveries[0].cause == SR.StageFault
    ensures Ends(LastRound(o, round, initial, s, end))
  {
    hide RunId, BlockedAtGate, Clean;
  }

  lemma {:induction false} EndsOneMore(call: StageCall, later: Session)
    requires Ends(later) && Clean(call.run)
    ensures Ends(Session([call] + later.calls, later.out))
  {
    hide Clean, LastRunFits;
    var calls := [call] + later.calls;
    assert calls[|calls| - 1] == later.calls[|later.calls| - 1];
    forall i | 0 <= i < |calls| - 1 ensures Clean(calls[i].run) {
      assert i > 0 ==> calls[i] == later.calls[i - 1];
    }
  }

  lemma {:induction false} RoundsEndWith(o: BoundedOptions, round: nat, prior: Option<ReviewState>,
                                         feedback: Option<string>,
                                         replies: seq<SR.Reply<string>>)
    ensures EndsWith(o, round, replies, Rounds(o, round, prior, feedback, replies))
    decreases if round <= o.maxRounds then o.maxRounds - round + 1 else 0
  {
    hide SR.StageOutcome, PassGate, RunId, InitialReviewState, BlockedAtGate, LastOut, EndsWith, RunIs;
    var initial := InitialReviewState(o, prior, feedback, round);
    var gate := PassGate(replies);
    if GoesOn(o, round, StageStep(o, round), gate.end) {
      var later := Rounds(o, round + 1, Some(o.finish(round, initial)), Some(gate.end.feedback), gate.rest);
      RoundsEndWith(o, round + 1, Some(o.finish(round, initial)), Some(gate.end.feedback), gate.rest);
      CallRuns(o, round, initial, StageStep(o, round), gate.end);
      EndsWithOneMore(o, round, replies, CallOf(o, round, initial, StageStep(o, round), gate.end), later);
    } else {
      EndsWithLast(o, round, initial, replies);
    }
  }

  lemma {:induction false} EndsWithLast(o: BoundedOptions, round: nat, initial: ReviewState,
                                        replies: seq<SR.Reply<string>>)
    requires !GoesOn(o, round, StageStep(o, round), PassGate(replies).end)
    ensures EndsWith(o, round, replies, LastRound(o, round, initial, StageStep(o, round), PassGate(replies).end))
  {
    hide SR.StageOutcome, PassGate, RunId, CallOf, LastOut, RunIs, SaysHowItEnded;
    assert GateAfter(replies, 0) == PassGate(replies).end;
    LastOutSaysHow(o, round, StageStep(o, round).out, PassGate(replies).end);
    CallRuns(o, round, initial, StageStep(o, round), PassGate(replies).end);
  }

  lemma {:induction false} RevisedShifts(o: BoundedOptions, round: nat, replies: seq<SR.Reply<string>>, i: nat)
    requires i > 0
    ensures GateAfter(replies, i) == GateAfter(PassGate(replies).rest, i - 1)
    ensures Revised(o, round, replies, i) <==> Revised(o, round + 1, PassGate(replies).rest, i - 1)
  {
    hide SR.StageOutcome, PassGate;
    assert round + i == round + 1 + (i - 1);
  }

  lemma {:induction false} FirstIsRevised(o: BoundedOptions, round: nat, replies: seq<SR.Reply<string>>)
    requires GoesOn(o, round, StageStep(o, round), PassGate(replies).end)
    ensures Revised(o, round, replies, 0) && round + 1 <= o.maxRounds
  {
    hide SR.StageOutcome, PassGate;
  }

  lemma {:induction false} EndsWithOneMore(o: BoundedOptions, round: nat, replies: seq<SR.Reply<string>>,
                                           call: StageCall,
                                           later: Session)
    requires GoesOn(o, round, StageStep(o, round), PassGate(replies).end)
    requires EndsWith(o, round + 1, PassGate(replies).rest, later)
    requires RunIs(call.run, o.stage(round).stageId, StageStep(o, round), PassGate(replies).end)
    ensures EndsWith(o, round, replies, Session([call] + later.calls, later.out))
  {
    var rest, n := PassGate(replies).rest, |later.calls| + 1;
    hide SR.StageOutcome, SR.SpeaksFrom, PassGate, SaysHowItEnded, RunIs, RunsAre, Revised, GateAfter, GoesOn;
    RunsOneMore(o, round, replies, call, later.calls);
    FirstIsRevised(o, round, replies);
    forall i | 0 <= i < n - 1 ensures Revised(o, round, replies, i) && round + i + 1 <= o.maxRounds {
      if i > 0 {
        RevisedShifts(o, round, replies, i);
        assert Revised(o, round + 1, rest, i - 1);
      }
    }
    RevisedShifts(o, round, replies, n - 1);
    var last := round + n - 1;
    assert last == round + 1 + |later.calls| - 1 && n - 1 - 1 == |later.calls| - 1;
    assert SaysHowItEnded(o, last, SR.StageOutcome(o.stage(last), o.menu(last)).out, GateAfter(replies, n - 1), later.out);
  }

  /** Every round there can be has an approved artifact which the user wants revised. */
  ghost predicate RunsOut(o: BoundedOptions, replies: seq<SR.Reply<string>>)
  {
    forall i: nat :: i <= Max(0, o.maxRounds) ==> Revised(o, 0, replies, i)
  }

  lemma {:induction false} RunsOutExactly(o: BoundedOptions, replies: seq<SR.Reply<string>>, s: Session)
    requires EndsWith(o, 0, replies, s)
    ensures s.out == Thrown(RoundsExhausted) <==> RunsOut(o, replies)
    ensures RunsOut(o, replies) ==> |s.calls| == Max(0, o.maxRounds) + 1
  {
    hide SR.StageOutcome, GateAfter;
    var last := |s.calls| - 1;
    assert last > 0 ==> Revised(o, 0, replies, last - 1);
    assert s.out == Thrown(RoundsExhausted) <==> Revised(o, 0, replies, last);
    if RunsOut(o, replies) {
      assert Revised(o, 0, replies, last);
    }
  }

  /** The last run of a session left a record. */
  ghost predicate LeavesRecord(o: BoundedOptions, replies: seq<SR.Reply<string>>, last: nat)
  {
    var stage := SR.StageOutcome(o.stage(last), o.menu(last)).out;
    if stage.Ok? then GateAfter(replies, last) == GateWaits else stage.error != SR.Cancelled
  }

  lemma {:induction false} RecordIsLeft(o: BoundedOptions, replies: seq<SR.Reply<string>>, s: Session)
    requires EndsWith(o, 0, replies, s) && Ends(s)
    ensures s.calls[|s.calls| - 1].run.recoveries != [] <==> LeavesRecord(o, replies, |s.calls| - 1)
    ensures s.out == Thrown(RoundsExhausted) ==> Clean(s.calls[|s.calls| - 1].run)
  {
    hide SR.StageOutcome, GateAfter, Revised, SaysHowItEnded, LastRunFits, Clean;
    var last := |s.calls| - 1;
    RunRecord(o, last, StageStep(o, last).out, GateAfter(replies, last), s.out, s.calls[last].run);
  }

  lemma {:induction false} RunRecord(o: Options, round: nat, stage: SR.Reply<string>, end: GateEnd,
                                     out: Outcome<string, GateError>, run: SR.RunState)
    requires SaysHowItEnded(o, round, stage, end, out) && LastRunFits(run, out)
    ensures run.recoveries != [] <==> if stage.Ok? then end == GateWaits else stage.error != SR.Cancelled
    ensures out == Thrown(RoundsExhausted) ==> Clean(run)
  {
    var approval := o.onUserApprove(round);
    if stage.Ok? && end == GateApproves && approval.Ok? {
      assert out == Ok(approval.value);
    }
  }

  /** How a session ends, from the stages and the replies. The last round is the first that
      is not revised, or the one that uses up the rounds. Every run before it was approved
      and left no record. The last run left a record, and only one, exactly when its stage
      threw something other than a cancellation or nobody answered its gate. A session runs
      out of rounds exactly when the user wants every round revised; it then ends with an
      error but leaves its run approved and nothing to resume from. */
  lemma {:induction false} SessionEnds(o: BoundedOptions, replies: seq<SR.Reply<string>>)
    ensures var s := Reviewed(o, replies);
            var last := |s.calls| - 1;
            && EndsWith(o, 0, replies, s) && Ends(s)
            && (s.calls[last].run.recoveries != [] <==> LeavesRecord(o, replies, last))
            && (s.out == Thrown(RoundsExhausted) <==> RunsOut(o, replies))
            && (RunsOut(o, replies) ==> |s.calls| == Max(0, o.maxRounds) + 1 && Clean(s.calls[last].run))
  {
    hide Bounded, Rounds, RunsOut, Clean, EndsWith, LastRunFits, LeavesRecord;
    RoundsEnd(o, 0, None, None, replies);
    RoundsEndWith(o, 0, None, None, replies);
    RecordIsLeft(o, replies, Reviewed(o, replies));
    RunsOutExactly(o, replies, Reviewed(o, replies));
  }

  // ---------- a session that runs out ----------

  /** A stage whose first artifact passes its first review. */
  function EasyStage(): SR.StageDefinition {
    SR.StageDefinition("brainstorm", 1, _ => Ok(SR.Artifact("draft")), _ => Ok(SR.Pass), _ => Ok("yes"), _ => Ok(()), _ => Ok([]), Ok("done"), _ => false)
  }

  /** The user review of that stage with no further round allowed. */
  function OneRound(start: ReviewState): Options {
    Options("run", 0, (_, _) => start, _ => EasyStage(), _ => [], (_, state) => state, _ => Ok("approved"))
  }

  lemma {:induction false} EasyRoundReturns(start: ReviewState)
    ensures Bounded(OneRound(start)) && StageStep(OneRound(start), 0).out == Ok("done")
  {
    hide SR.StageOutcome;
    var o := OneRound(start);
    forall r: nat ensures SR.SpeaksFrom(o.stage(r), o.menu(r)) {
      assert o.stage(r) == EasyStage();
    }
    SR.PassingStageReturns(EasyStage(), []);
  }

  /** With no further round allowed, a user who asks for a revision ends the session in an
      error, with an approved run and no recovery record. */
  lemma {:induction false} ARevisionCanEndTheSession(start: ReviewState)
    ensures Bounded(OneRound(start))
    ensures var s := Reviewed(OneRound(start), [Ok("revise: more detail")]);
            s.out == Thrown(RoundsExhausted) && |s.calls| == 1 && Clean(s.calls[0].run)
  {
    var o := OneRound(start);
    var replies: seq<SR.Reply<string>> := [Ok("revise: more detail")];
    EasyRoundReturns(start);
    SaysRevise();
    hide SR.StageOutcome, Bounded, EasyStage, Decide, Reviewed, Clean, Ends, EndsWith, LeavesRecord;
    assert PassGate(replies).end == GateRevises("more detail");
    assert GateAfter(replies, 0).GateRevises?;
    assert RunsOut(o, replies);
    SessionEnds(o, replies);
  }

  lemma {:induction false} SaysRevise()
    ensures Decide("revise: more detail") == Revise("more detail")
  {
    assert "revise: more detail" == "revise:" + " more detail";
    RevisionIsHeard("revise:", " more detail");
    assert " more detail"[1..] == "more detail";
    TrimKeepsTrimmed("more detail");
  }

  // ---------- the gate in place ----------

  class ReviewGate {
    const o: BoundedOptions
    /** The replies not yet read at a gate. */
    var replies: seq<SR.Reply<string>>

    constructor (o: BoundedOptions, replies: seq<SR.Reply<string>>)
      ensures this.o == o && this.replies == replies
    {
      this.o, this.replies := o, replies;
    }

    /** `readUserReviewDecision`, up to calling `onUserApprove`. */
    method ReadUserReviewDecision(run: SR.StageRun) returns (end: GateEnd)
      modifies this, run
      ensures var gate := PassGate(old(replies));
              && end == gate.end && replies == gate.rest
              && run.Snapshot() == (if end == GateWaits then BlockedAtGate(run.d, old(run.Snapshot())) else old(run.Snapshot()))
    {
      ghost var all := replies;
      while true
        invariant PassGate(replies) == PassGate(all) && run.Snapshot() == old(run.Snapshot())
        decreases |replies|
      {
        var reply: SR.Reply<string> := Ok(NO_ANSWER_SENTINEL);
        var ended := replies == [];
        if !ended { reply, replies := replies[0], replies[1..]; }
        if reply.Thrown? { return GateFails(reply.error); }
        var decision := Decide(reply.value);
        SentinelDecides();
        if decision == Unanswered {
          var summary := SR.GateUnanswered(run.d.stageId);
          run.status := SR.Blocked;
          run.PushLog(SR.LogEntry(SR.StatusChanged, summary, None));
          run.RecordStageBlocked(SR.StageFault, summary);
          return GateWaits;
        }
        if decision == Approve { return GateApproves; }
        if decision.Revise? { return GateRevises(decision.feedback); }
      }
    }

    /** One turn of the loop up to the decision: the stage run, and its gate if it returns. */
    method RunRound(round: nat, initial: ReviewState)
      returns (artifact: SR.Reply<string>, end: GateEnd, call: StageCall)
      modifies this
      ensures artifact == StageStep(o, round).out
      ensures artifact.Ok? ==> end == PassGate(old(replies)).end && replies == PassGate(old(replies)).rest
      ensures artifact.Thrown? ==> replies == old(replies)
      ensures call == CallOf(o, round, initial, StageStep(o, round), end)
    {
      var run := new SR.StageRun(o.stage(round));
      artifact := run.RunStage(o.menu(round));
      assert StageStep(o, round) == SR.Step(run.Snapshot(), artifact);
      hide StageStep, RunId, PassGate, BlockedAtGate;
      end := GateWaits;
      if artifact.Ok? { end := ReadUserReviewDecision(run); }
      call := StageCall(RunId(o, round), initial, run.Snapshot());
    }

    /** `runStageWithUserReview`. */
    method RunStageWithUserReview() returns (out: Outcome<string, GateError>, calls: seq<StageCall>)
      modifies this
      ensures Session(calls, out) == Reviewed(o, old(replies))
    {
      var pendingRevisionFeedback: Option<string>, priorState: Option<ReviewState> := None, None;
      var userReviewRound := 0;
      ghost var whole := Reviewed(o, replies);
      calls := [];
      hide InitialReviewState, PassGate, CallOf, StageStep, LastOut, OnTrack;
      TrackStarts(o, replies);
      while true
        invariant OnTrack(o, whole, calls, userReviewRound, priorState, pendingRevisionFeedback, replies)
        invariant userReviewRound == 0 || userReviewRound <= o.maxRounds
        decreases if userReviewRound <= o.maxRounds then o.maxRounds - userReviewRound + 1 else 0
      {
        ghost var asked := replies;
        var initial := InitialReviewState(o, priorState, pendingRevisionFeedback, userReviewRound);
        var artifact, decision, call := RunRound(userReviewRound, initial);
        if artifact.Thrown? || !decision.GateRevises? || userReviewRound + 1 > o.maxRounds {
          TrackEnds(o, whole, calls, userReviewRound, priorState, pendingRevisionFeedback, asked, decision);
          return LastOut(o, userReviewRound, artifact, decision), calls + [call];
        }
        TrackGoesOn(o, whole, calls, userReviewRound, priorState, pendingRevisionFeedback, asked);
        calls := calls + [call];
        priorState, pendingRevisionFeedback := Some(o.finish(userReviewRound, initial)), Some(decision.feedback);
        userReviewRound := userReviewRound + 1;
      }
    }
  }

  /** The calls made so far and the rounds to come are the whole session. */
  ghost predicate OnTrack(o: BoundedOptions, whole: Session, calls: seq<StageCall>, round: nat,
                          prior: Option<ReviewState>,
                          feedback: Option<string>, replies: seq<SR.Reply<string>>)
  {
    var later := Rounds(o, round, prior, feedback, replies);
    whole == Session(calls + later.calls, later.out)
  }

  lemma {:induction false} TrackStarts(o: BoundedOptions, replies: seq<SR.Reply<string>>)
    ensures OnTrack(o, Reviewed(o, replies), [], 0, None, None, replies)
  {
    hide Rounds;
    assert [] + Reviewed(o, replies).calls == Reviewed(o, replies).calls;
  }

  lemma {:induction false} TrackEnds(o: BoundedOptions, whole: Session, calls: seq<StageCall>, round: nat,
                                     prior: Option<ReviewState>,
                                     feedback: Option<string>, replies: seq<SR.Reply<string>>, end: GateEnd)
    requires OnTrack(o, whole, calls, round, prior, feedback, replies)
    requires !GoesOn(o, round, StageStep(o, round), PassGate(replies).end)
    requires StageStep(o, round).out.Ok? ==> end == PassGate(replies).end
    ensures whole == Session(calls + [CallOf(o, round, InitialReviewState(o, prior, feedback, round), StageStep(o, round), end)],
                             LastOut(o, round, StageStep(o, round).out, end))
  {
    hide Rounds, InitialReviewState, StageStep, PassGate, BlockedAtGate, RunId;
    RoundIsLast(o, round, prior, feedback, replies);
  }

  lemma {:induction false} TrackGoesOn(o: BoundedOptions, whole: Session, calls: seq<StageCall>, round: nat,
                                       prior: Option<ReviewState>,
                                       feedback: Option<string>, replies: seq<SR.Reply<string>>)
    requires OnTrack(o, whole, calls, round, prior, feedback, replies)
    requires GoesOn(o, round, StageStep(o, round), PassGate(replies).end)
    ensures var initial, gate := InitialReviewState(o, prior, feedback, round), PassGate(replies);
            OnTrack(o, whole, calls + [CallOf(o, round, initial, StageStep(o, round), gate.end)], round + 1,
                    Some(o.finish(round, initial)), Some(gate.end.feedback), gate.rest)
  {
    hide Rounds, InitialReviewState, StageStep, PassGate, CallOf;
    RoundGoesOn(o, round, prior, feedback, replies);
    var initial, gate := InitialReviewState(o, prior, feedback, round), PassGate(replies);
    var call := CallOf(o, round, initial, StageStep(o, round), gate.end);
    var later := Rounds(o, round + 1, Some(o.finish(round, initial)), Some(gate.end.feedback), gate.rest);
    assert calls + ([call] + later.calls) == calls + [call] + later.calls;
  }

  lemma {:induction false} RoundIsLast(o: BoundedOptions, round: nat, prior: Option<ReviewState>,
                                       feedback: Option<string>,
                                       replies: seq<SR.Reply<string>>)
    requires !GoesOn(o, round, StageStep(o, round), PassGate(replies).end)
    ensures Rounds(o, round, prior, feedback, replies)
         == LastRound(o, round, InitialReviewState(o, prior, feedback, round), StageStep(o, round), PassGate(replies).end)
  {
    hide InitialReviewState, StageStep, PassGate, LastRound;
  }

  lemma {:induction false} RoundGoesOn(o: BoundedOptions, round: nat, prior: Option<ReviewState>,
                                       feedback: Option<string>,
                                       replies: seq<SR.Reply<string>>)
    requires GoesOn(o, round, StageStep(o, round), PassGate(replies).end)
    ensures var initial := InitialReviewState(o, prior, feedback, round);
            var later := Rounds(o, round + 1, Some(o.finish(round, initial)), Some(PassGate(replies).end.feedback), PassGate(replies).rest);
            Rounds(o, round, prior, feedback, replies) ==
            Session([CallOf(o, round, initial, StageStep(o, round), PassGate(replies).end)] + later.calls, later.out)
  {
    hide InitialReviewState, StageStep, PassGate, CallOf;
  }

  lemma {:induction false} SentinelDecides()
    ensures Decide(NO_ANSWER_SENTINEL) == Unanswered
  {
    SentinelIsTrimmed();
  }
}
