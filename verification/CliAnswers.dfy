/** Model of the piped-stdin prompt resolver (`ioCli.ts`): prompts and lines arrive in any
    interleaving and meet in two queues. */
module CliAnswers {
  import opened Arithmetic
  import opened Outcomes
  import opened Text

  datatype PromptId = PromptId(key: int)

  datatype PromptAction = PromptAction(labelText: string, value: string)

  datatype Prompt = Prompt(id: PromptId, actions: Option<seq<PromptAction>>)

  datatype Answer = Answer(id: PromptId, text: string)

  /** The string operations of the host: `toLowerCase`, and `Number(s)` where that is an
      integer. */
  datatype Host = Host(lower: string -> string, integerOf: string -> Option<int>)

  // ---------- normalisation ----------

  function FindValue(host: Host, actions: seq<PromptAction>, folded: string): Option<PromptAction> {
    if actions == [] then None
    else if host.lower(actions[0].value) == folded then Some(actions[0])
    else FindValue(host, actions[1..], folded)
  }

  function FindLabel(host: Host, actions: seq<PromptAction>, folded: string): Option<PromptAction> {
    if actions == [] then None
    else if host.lower(actions[0].labelText) == folded then Some(actions[0])
    else FindLabel(host, actions[1..], folded)
  }

  /** The action an answer selects: by number, else by value, else by label. */
  function Selected(host: Host, trimmed: string, actions: seq<PromptAction>): Option<PromptAction> {
    var n := host.integerOf(trimmed);
    if n.Some? && 1 <= n.value <= |actions| then Some(actions[n.value - 1])
    else if FindValue(host, actions, host.lower(trimmed)).Some? then FindValue(host, actions, host.lower(trimmed))
    else FindLabel(host, actions, host.lower(trimmed))
  }

  function NormalizeAnswer(host: Host, answer: string, actions: Option<seq<PromptAction>>): string {
    var trimmed := Trim(answer);
    if actions.None? || trimmed == "" then trimmed
    else
      var selected := Selected(host, trimmed, actions.value);
      if selected.Some? then selected.value.value else trimmed
  }

  lemma {:induction false} FindMisses(host: Host, actions: seq<PromptAction>, folded: string)
    ensures FindValue(host, actions, folded).None? <==> forall a :: a in actions ==> host.lower(a.value) != folded
    ensures FindLabel(host, actions, folded).None? <==> forall a :: a in actions ==> host.lower(a.labelText) != folded
    ensures FindValue(host, actions, folded).Some? ==>
              FindValue(host, actions, folded).value in actions && host.lower(FindValue(host, actions, folded).value.value) == folded
    ensures FindLabel(host, actions, folded).Some? ==>
              FindLabel(host, actions, folded).value in actions && host.lower(FindLabel(host, actions, folded).value.labelText) == folded
  {
    if actions != [] {
      FindMisses(host, actions[1..], folded);
    }
  }

  /** `FindValue` has a place in the list. */
  lemma {:induction false} FoundValueAt(host: Host, actions: seq<PromptAction>, folded: string) returns (j: nat)
    requires FindValue(host, actions, folded).Some?
    ensures j < |actions| && FindValue(host, actions, folded) == Some(actions[j])
    ensures forall i :: 0 <= i < j ==> host.lower(actions[i].value) != folded
  {
    if host.lower(actions[0].value) == folded {
      j := 0;
    } else {
      var k := FoundValueAt(host, actions[1..], folded);
      j := k + 1;
      forall i | 0 <= i < j ensures host.lower(actions[i].value) != folded {
        assert i > 0 ==> actions[i] == actions[1..][i - 1];
      }
    }
  }

  lemma {:induction false} FoundLabelAt(host: Host, actions: seq<PromptAction>, folded: string) returns (j: nat)
    requires FindLabel(host, actions, folded).Some?
    ensures j < |actions| && FindLabel(host, actions, folded) == Some(actions[j])
    ensures forall i :: 0 <= i < j ==> host.lower(actions[i].labelText) != folded
  {
    if host.lower(actions[0].labelText) == folded {
      j := 0;
    } else {
      var k := FoundLabelAt(host, actions[1..], folded);
      j := k + 1;
      forall i | 0 <= i < j ensures host.lower(actions[i].labelText) != folded {
        assert i > 0 ==> actions[i] == actions[1..][i - 1];
      }
    }
  }

  /** The j-th action is the first that goes by the folded text as its value. */
  ghost predicate FirstByValue(host: Host, actions: seq<PromptAction>, folded: string, j: int) {
    && 0 <= j < |actions| && host.lower(actions[j].value) == folded
    && forall i :: 0 <= i < j ==> host.lower(actions[i].value) != folded
  }

  ghost predicate FirstByLabel(host: Host, actions: seq<PromptAction>, folded: string, j: int) {
    && 0 <= j < |actions| && host.lower(actions[j].labelText) == folded
    && forall i :: 0 <= i < j ==> host.lower(actions[i].labelText) != folded
  }

  /** A normalised answer is the value of the action with that number; without such a number,
      of the first action with that value; without such a value, of the first with that
      label; and the trimmed text when no action goes by it or none is offered. */
  lemma {:induction false} NormalizedIsOffered(host: Host, answer: string, actions: seq<PromptAction>)
    ensures NormalizeAnswer(host, answer, None) == Trim(answer)
    ensures Trim(answer) == "" ==> NormalizeAnswer(host, answer, Some(actions)) == ""
    ensures var text, trimmed := NormalizeAnswer(host, answer, Some(actions)), Trim(answer);
            var folded, n := host.lower(trimmed), host.integerOf(trimmed);
            trimmed != "" ==>
              if n.Some? && 1 <= n.value <= |actions| then text == actions[n.value - 1].value
              else if exists a :: a in actions && host.lower(a.value) == folded then
                exists j :: FirstByValue(host, actions, folded, j) && text == actions[j].value
              else if exists a :: a in actions && host.lower(a.labelText) == folded then
                exists j :: FirstByLabel(host, actions, folded, j) && text == actions[j].value
              else text == trimmed
  {
    hide Trim;
    var folded := host.lower(Trim(answer));
    FindMisses(host, actions, folded);
    if a :| a in actions && host.lower(a.value) == folded {
      var j := FoundValueAt(host, actions, folded);
      assert FirstByValue(host, actions, folded, j);
    } else if a :| a in actions && host.lower(a.labelText) == folded {
      var j := FoundLabelAt(host, actions, folded);
      assert FirstByLabel(host, actions, folded, j);
    }
  }

  /** An action whose value or label differs from the sentinel in case at most. */
  predicate NamedLikeSentinel(host: Host, a: PromptAction) {
    || host.lower(a.value) == host.lower(NO_ANSWER_SENTINEL)
    || host.lower(a.labelText) == host.lower(NO_ANSWER_SENTINEL)
  }

  /** Some action has the sentinel itself as its value, and no earlier one a value that
      differs from it in case only. */
  ghost predicate OffersSentinelFirst(host: Host, actions: seq<PromptAction>) {
    exists j :: 0 <= j < |actions| && actions[j].value == NO_ANSWER_SENTINEL
                && forall i :: 0 <= i < j ==> host.lower(actions[i].value) != host.lower(NO_ANSWER_SENTINEL)
  }

  lemma {:induction false} FindsFirstValue(host: Host, actions: seq<PromptAction>, folded: string, j: nat)
    requires j < |actions| && host.lower(actions[j].value) == folded
    requires forall i :: 0 <= i < j ==> host.lower(actions[i].value) != folded
    ensures FindValue(host, actions, folded) == Some(actions[j])
  {
    if j > 0 {
      FindsFirstValue(host, actions[1..], folded, j - 1);
    }
  }

  /** Normalising leaves the sentinel as it is, so that "no answer" is recognised, exactly
      when no action is named like it or the sentinel itself is the first such value. */
  lemma {:induction false} SentinelSurvives(host: Host, actions: seq<PromptAction>)
    requires host.integerOf(NO_ANSWER_SENTINEL).None?
    ensures NormalizeAnswer(host, NO_ANSWER_SENTINEL, None) == NO_ANSWER_SENTINEL
    ensures NormalizeAnswer(host, NO_ANSWER_SENTINEL, Some(actions)) == NO_ANSWER_SENTINEL
       <==> (forall a :: a in actions ==> !NamedLikeSentinel(host, a)) || OffersSentinelFirst(host, actions)
  {
    var folded := host.lower(NO_ANSWER_SENTINEL);
    SentinelIsTrimmed();
    FindMisses(host, actions, folded);
    hide Trim;
    if OffersSentinelFirst(host, actions) {
      var j :| 0 <= j < |actions| && actions[j].value == NO_ANSWER_SENTINEL
               && forall i :: 0 <= i < j ==> host.lower(actions[i].value) != folded;
      FindsFirstValue(host, actions, folded, j);
    } else if FindValue(host, actions, folded).Some? {
      var j := FoundValueAt(host, actions, folded);
      assert actions[j].value != NO_ANSWER_SENTINEL;
      assert actions[j] in actions && NamedLikeSentinel(host, actions[j]);
    }
  }

  // ---------- the two queues ----------

  datatype Event = PromptRequested(prompt: Prompt) | Line(text: string) | StdinClosed

  datatype Queues = Queues(queued: seq<string>, pending: seq<Prompt>, ended: bool, answers: seq<Answer>)

  const EMPTY := Queues([], [], false, [])

  function Resolved(host: Host, q: Queues, prompt: Prompt, text: string): Queues {
    q.(answers := q.answers + [Answer(prompt.id, NormalizeAnswer(host, text, prompt.actions))])
  }

  function AllResolved(host: Host, q: Queues, text: string): Queues
    decreases |q.pending|
  {
    if q.pending == [] then q
    else AllResolved(host, Resolved(host, q.(pending := q.pending[1..]), q.pending[0], text), text)
  }

  function Step(host: Host, q: Queues, e: Event): Queues {
    match e
    case PromptRequested(prompt) =>
      if q.queued != [] then Resolved(host, q.(queued := q.queued[1..]), prompt, q.queued[0])
      else if q.ended then Resolved(host, q, prompt, NO_ANSWER_SENTINEL)
      else q.(pending := q.pending + [prompt])
    case Line(text) =>
      if q.pending != [] then Resolved(host, q.(pending := q.pending[1..]), q.pending[0], text)
      else q.(queued := q.queued + [text])
    case StdinClosed => AllResolved(host, q.(ended := true), NO_ANSWER_SENTINEL)
  }

  function Run(host: Host, events: seq<Event>): Queues {
    if events == [] then EMPTY else Step(host, Run(host, events[..|events| - 1]), events[|events| - 1])
  }

  // ---------- what the answers must be ----------

  function Prompts(events: seq<Event>): seq<Prompt> {
    if events == [] then []
    else
      var last := events[|events| - 1];
      Prompts(events[..|events| - 1]) + (if last.PromptRequested? then [last.prompt] else [])
  }

  function Lines(events: seq<Event>): seq<string> {
    if events == [] then []
    else
      var last := events[|events| - 1];
      Lines(events[..|events| - 1]) + (if last.Line? then [last.text] else [])
  }

  predicate Closed(events: seq<Event>) { StdinClosed in events }

  /** `readline` delivers every line before it reports the end of the stream. */
  ghost predicate LinesBeforeClose(events: seq<Event>) {
    forall i, j :: 0 <= i < j < |events| && events[i].StdinClosed? ==> !events[j].Line?
  }

  /** The k-th prompt gets the k-th line, or the sentinel if stdin is closed and there is
      no k-th line; it has no answer yet while that line may still come. */
  function ExpectedAnswers(host: Host, prompts: seq<Prompt>, lines: seq<string>, closed: bool): seq<Answer> {
    seq(if closed then |prompts| else Min(|prompts|, |lines|),
        k requires 0 <= k < |prompts| =>
          Answer(prompts[k].id, NormalizeAnswer(host, if k < |lines| then lines[k] else NO_ANSWER_SENTINEL, prompts[k].actions)))
  }

  /** The whole state after any interleaving, from the prompts and lines alone. */
  function ExpectedQueues(host: Host, prompts: seq<Prompt>, lines: seq<string>, closed: bool): Queues {
    var met := Min(|prompts|, |lines|);
    Queues(lines[met..], if closed then [] else prompts[met..], closed, ExpectedAnswers(host, prompts, lines, closed))
  }

  lemma {:induction false} AllResolvedAnswers(host: Host, q: Queues, text: string)
    ensures AllResolved(host, q, text)
         == q.(pending := [], answers := q.answers + seq(|q.pending|, k requires 0 <= k < |q.pending| =>
                                                                Answer(q.pending[k].id, NormalizeAnswer(host, text, q.pending[k].actions))))
    decreases |q.pending|
  {
    if q.pending != [] {
      var next := Resolved(host, q.(pending := q.pending[1..]), q.pending[0], text);
      AllResolvedAnswers(host, next, text);
      assert q.answers + seq(|q.pending|, k requires 0 <= k < |q.pending| =>
                                 Answer(q.pending[k].id, NormalizeAnswer(host, text, q.pending[k].actions)))
          == next.answers + seq(|next.pending|, k requires 0 <= k < |next.pending| =>
                                    Answer(next.pending[k].id, NormalizeAnswer(host, text, next.pending[k].actions)));
    } else {
      assert q.answers + [] == q.answers;
    }
  }

  lemma {:induction false} PromptMeetsExpectation(host: Host, prompts: seq<Prompt>, lines: seq<string>, closed: bool,
                                                  prompt: Prompt)
    ensures Step(host, ExpectedQueues(host, prompts, lines, closed), PromptRequested(prompt))
         == ExpectedQueues(host, prompts + [prompt], lines, closed)
  {
    hide NormalizeAnswer;
    var q := ExpectedQueues(host, prompts, lines, closed);
    var after := ExpectedAnswers(host, prompts + [prompt], lines, closed);
    if |lines| > |prompts| {
      assert q.queued == [lines[|prompts|]] + lines[|prompts| + 1..];
      assert after == q.answers + [after[|prompts|]];
    } else if closed {
      assert after == q.answers + [after[|prompts|]];
    } else {
      assert after == q.answers;
    }
  }

  lemma {:induction false} LineMeetsExpectation(host: Host, prompts: seq<Prompt>, lines: seq<string>, text: string)
    ensures Step(host, ExpectedQueues(host, prompts, lines, false), Line(text))
         == ExpectedQueues(host, prompts, lines + [text], false)
  {
    hide NormalizeAnswer;
    var q := ExpectedQueues(host, prompts, lines, false);
    var after := ExpectedAnswers(host, prompts, lines + [text], false);
    if |prompts| > |lines| {
      assert q.pending == [prompts[|lines|]] + prompts[|lines| + 1..];
      assert after == q.answers + [after[|lines|]];
    } else {
      assert after == q.answers;
      assert (lines + [text])[|prompts|..] == lines[|prompts|..] + [text];
    }
  }

  lemma {:induction false} CloseMeetsExpectation(host: Host, prompts: seq<Prompt>, lines: seq<string>, closed: bool)
    ensures Step(host, ExpectedQueues(host, prompts, lines, closed), StdinClosed)
         == ExpectedQueues(host, prompts, lines, true)
  {
    hide NormalizeAnswer;
    var q := ExpectedQueues(host, prompts, lines, closed).(ended := true);
    AllResolvedAnswers(host, q, NO_ANSWER_SENTINEL);
    assert ExpectedAnswers(host, prompts, lines, true) == AllResolved(host, q, NO_ANSWER_SENTINEL).answers;
  }

  /** After every interleaving of prompts, lines and the end of stdin the answers so far
      are the expected ones, in prompt order; the line queue and the prompt queue hold
      what has not met yet. */
  lemma {:induction false} AnswersFollowThePrompts(host: Host, events: seq<Event>)
    requires LinesBeforeClose(events)
    ensures Run(host, events) == ExpectedQueues(host, Prompts(events), Lines(events), Closed(events))
  {
    hide NormalizeAnswer, ExpectedQueues, Step;
    if events == [] {
      NothingYet(host);
    } else {
      var front, last := events[..|events| - 1], events[|events| - 1];
      AnswersFollowThePrompts(host, front);
      assert events == front + [last];
      assert Closed(events) <==> Closed(front) || last.StdinClosed?;
      assert Prompts(front) + [] == Prompts(front) && Lines(front) + [] == Lines(front);
      match last
      case PromptRequested(prompt) => PromptMeetsExpectation(host, Prompts(front), Lines(front), Closed(front), prompt);
      case Line(text) => LineMeetsExpectation(host, Prompts(front), Lines(front), text);
      case StdinClosed => CloseMeetsExpectation(host, Prompts(front), Lines(front), Closed(front));
    }
  }

  lemma {:induction false} NothingYet(host: Host)
    ensures ExpectedQueues(host, [], [], false) == EMPTY
  {
  }

  /** The interleaving does not matter: runs with the same prompts in order, the same lines
      in order and the same end give the same answers. */
  lemma {:induction false} InterleavingDoesNotMatter(host: Host, a: seq<Event>, b: seq<Event>)
    requires LinesBeforeClose(a) && LinesBeforeClose(b)
    requires Prompts(a) == Prompts(b) && Lines(a) == Lines(b) && (Closed(a) <==> Closed(b))
    ensures Run(host, a) == Run(host, b)
  {
    AnswersFollowThePrompts(host, a);
    AnswersFollowThePrompts(host, b);
  }

  /** The two queues never both hold something, and after the end nobody is left waiting. */
  lemma {:induction false} QueuesNeverBothWait(host: Host, events: seq<Event>)
    requires LinesBeforeClose(events)
    ensures var q := Run(host, events);
            && (q.queued == [] || q.pending == [])
            && (Closed(events) ==> q.pending == [] && |q.answers| == |Prompts(events)|)
  {
    AnswersFollowThePrompts(host, events);
  }

  /** Each prompt's answer in the long run: its own line if there is one, else the sentinel
      once stdin has ended, each normalised with the prompt's own actions. */
  lemma {:induction false} EachPromptGetsItsLine(host: Host, events: seq<Event>, k: nat)
    requires LinesBeforeClose(events) && k < |Prompts(events)|
    requires k < |Lines(events)| || Closed(events)
    ensures var prompt := Prompts(events)[k];
            k < |Run(host, events).answers|
            && Run(host, events).answers[k]
               == Answer(prompt.id, NormalizeAnswer(host,
                                                    if k < |Lines(events)| then Lines(events)[k] else NO_ANSWER_SENTINEL,
                                                    prompt.actions))
  {
    AnswersFollowThePrompts(host, events);
  }

  /** A prompt with no line of its own is answered with the sentinel exactly when it offers
      no actions, none is named like the sentinel, or the sentinel comes first among those
      that are; otherwise the end of stdin reads as a choice. */
  lemma {:induction false} EndOfInputIsNoAnswer(host: Host, events: seq<Event>, k: nat)
    requires LinesBeforeClose(events) && Closed(events) && |Lines(events)| <= k < |Prompts(events)|
    requires host.integerOf(NO_ANSWER_SENTINEL).None?
    ensures k < |Run(host, events).answers|
    ensures Run(host, events).answers[k].text == NO_ANSWER_SENTINEL
       <==> match Prompts(events)[k].actions
            case None => true
            case Some(actions) =>
              (forall a :: a in actions ==> !NamedLikeSentinel(host, a)) || OffersSentinelFirst(host, actions)
  {
    EachPromptGetsItsLine(host, events, k);
    hide NormalizeAnswer, Run, Prompts, Lines;
    var actions := Prompts(events)[k].actions;
    SentinelSurvives(host, if actions.Some? then actions.value else []);
  }

  // ---------- the mutable resolver ----------

  class Resolver {
    const host: Host
    var queuedAnswers: seq<string>
    var pendingAnswers: seq<Prompt>
    var stdinEnded: bool
    /** The `prompt_answered` events emitted. */
    var emitted: seq<Answer>

    constructor (host: Host)
      ensures this.host == host && State() == EMPTY
    {
      this.host := host;
      queuedAnswers, pendingAnswers, stdinEnded, emitted := [], [], false, [];
    }

    function State(): Queues
      reads this
    {
      Queues(queuedAnswers, pendingAnswers, stdinEnded, emitted)
    }

    method ResolveAnswer(prompt: Prompt, answer: string)
      modifies this`emitted
      ensures State() == Resolved(host, old(State()), prompt, answer)
    {
      emitted := emitted + [Answer(prompt.id, NormalizeAnswer(host, answer, prompt.actions))];
    }

    method OnPrompt(prompt: Prompt)
      modifies this
      ensures State() == Step(host, old(State()), PromptRequested(prompt))
    {
      if |queuedAnswers| > 0 {
        var line := queuedAnswers[0];
        queuedAnswers := queuedAnswers[1..];
        ResolveAnswer(prompt, line);
        return;
      }
      if stdinEnded {
        ResolveAnswer(prompt, NO_ANSWER_SENTINEL);
        return;
      }
      pendingAnswers := pendingAnswers + [prompt];
    }

    method OnLine(line: string)
      modifies this
      ensures State() == Step(host, old(State()), Line(line))
    {
      if |pendingAnswers| > 0 {
        var prompt := pendingAnswers[0];
        pendingAnswers := pendingAnswers[1..];
        ResolveAnswer(prompt, line);
      } else {
        queuedAnswers := queuedAnswers + [line];
      }
    }

    method OnClose()
      modifies this
      ensures State() == Step(host, old(State()), StdinClosed)
    {
      stdinEnded := true;
      while |pendingAnswers| > 0
        invariant AllResolved(host, State(), NO_ANSWER_SENTINEL)
                  == AllResolved(host, old(State()).(ended := true), NO_ANSWER_SENTINEL)
        decreases |pendingAnswers|
      {
        var prompt := pendingAnswers[0];
        pendingAnswers := pendingAnswers[1..];
        ResolveAnswer(prompt, NO_ANSWER_SENTINEL);
      }
    }
  }
}
