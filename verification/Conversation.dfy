/** Model of the transcript projection (`conversation.ts`): the log rows of a run become
    conversation entries, and a prompt swallows the chat message that asked its question. */
module Conversation {
  import opened Outcomes
  import opened Text

  datatype RowId = RowId(key: int)

  datatype EventType = ChatMessage | PromptRequested | PromptAnswered

  datatype ChatSource = StageAgent | Reviewer | OtherSource

  /** `promptId` is the parsed field of the row's data; None also stands for an empty one. */
  datatype LogRow = LogRow(id: RowId, event: EventType, message: string, promptId: Option<string>, source: ChatSource,
                           fromUser: bool)

  datatype EntryKind = MessageEntry | QuestionEntry | AnswerEntry

  datatype Actor = SystemActor | AgentActor | UserActor

  datatype Entry = Entry(row: RowId, kind: EntryKind, actor: Actor, text: string, promptId: Option<string>)

  const AWAITING := "Awaiting your input."

  ghost predicate UniqueIds(logs: seq<LogRow>) {
    forall i, j :: 0 <= i < j < |logs| ==> logs[i].id != logs[j].id
  }

  // ---------- placeholders ----------

  /** `/^\s*you\s*>\s*$/i`, or no text at all. */
  predicate IsPlaceholder(message: string) {
    var t := Trim(message);
    message == "" ||
    (&& |t| >= 4
     && t[0] in {'y', 'Y'} && t[1] in {'o', 'O'} && t[2] in {'u', 'U'}
     && t[|t| - 1] == '>'
     && AllSpace(t[3..|t| - 1]))
  }

  /** The word in any case of letters, an arrow, and spaces wherever there may be some. */
  lemma {:induction false} PlaceholdersAreSeen(before: string, word: string, between: string, after: string)
    requires AllSpace(before) && AllSpace(between) && AllSpace(after)
    requires |word| == 3 && word[0] in {'y', 'Y'} && word[1] in {'o', 'O'} && word[2] in {'u', 'U'}
    ensures IsPlaceholder(before + (word + between + ">") + after) && IsPlaceholder("")
  {
    var text := word + between + ">";
    assert text[0] == word[0] && text[1] == word[1] && text[2] == word[2] && text[3..|text| - 1] == between;
    TrimPasses(before, text, after);
  }

  /** Only such texts are placeholders, besides the empty one. */
  lemma {:induction false} PlaceholderIsSpelled(message: string)
    requires IsPlaceholder(message) && message != ""
    ensures var text := Trim(message);
            && |text| >= 4 && text[0] in {'y', 'Y'} && text[1] in {'o', 'O'} && text[2] in {'u', 'U'}
            && text[|text| - 1] == '>' && forall i :: 3 <= i < |text| - 1 ==> IsSpace(text[i])
  {
    hide Trim, IsSpace;
    var text := Trim(message);
    forall i | 3 <= i < |text| - 1 ensures IsSpace(text[i]) {
      assert text[i] == text[3..|text| - 1][i - 3];
    }
  }

  function ActorOf(row: LogRow): Actor {
    if row.fromUser then UserActor
    else if row.source == StageAgent || row.source == Reviewer then AgentActor
    else SystemActor
  }

  // ---------- folding ----------

  /** The nearest non-blank chat message directly before row n, blank ones skipped. */
  function FoldableBefore(logs: seq<LogRow>, n: nat): Option<nat>
    requires n <= |logs|
  {
    if n == 0 || logs[n - 1].event != ChatMessage then None
    else if Trim(logs[n - 1].message) != "" then Some(n - 1)
    else FoldableBefore(logs, n - 1)
  }

  /** Prompt p swallows chat message c. */
  predicate Suppresses(logs: seq<LogRow>, p: nat, c: nat)
    requires p < |logs| && c < |logs|
  {
    && logs[p].event == PromptRequested
    && FoldableBefore(logs, p) == Some(c)
    && (IsPlaceholder(logs[p].message) || Trim(logs[c].message) == Trim(logs[p].message))
  }

  datatype Folding = Folding(suppressed: set<RowId>, foldedText: map<RowId, string>)

  function FoldRow(logs: seq<LogRow>, n: nat, f: Folding): Folding
    requires n < |logs|
  {
    var c := FoldableBefore(logs, n);
    if logs[n].event != PromptRequested || c.None? || c.value >= |logs| then f
    else
      var previous := logs[c.value];
      if !IsPlaceholder(logs[n].message) && Trim(previous.message) != Trim(logs[n].message) then f
      else Folding(f.suppressed + {previous.id},
                   if IsPlaceholder(logs[n].message) then f.foldedText[logs[n].id := previous.message] else f.foldedText)
  }

  function Fold(logs: seq<LogRow>, n: nat): Folding
    requires n <= |logs|
  {
    if n == 0 then Folding({}, map[]) else FoldRow(logs, n - 1, Fold(logs, n - 1))
  }

  function QuestionText(f: Folding, row: LogRow): string {
    var raw := if row.id in f.foldedText then f.foldedText[row.id] else if IsPlaceholder(row.message) then "" else row.message;
    if Trim(raw) == "" then AWAITING else Trim(raw)
  }

  /** `conversationEntryFromLog`. */
  function EntryFromRow(f: Folding, row: LogRow): Option<Entry> {
    match row.event
    case ChatMessage =>
      if Trim(row.message) == "" then None else Some(Entry(row.id, MessageEntry, ActorOf(row), Trim(row.message), None))
    case PromptRequested =>
      if row.promptId.None? then None else Some(Entry(row.id, QuestionEntry, AgentActor, QuestionText(f, row), row.promptId))
    case PromptAnswered =>
      if row.promptId.None? || Trim(row.message) == "" then None
      else Some(Entry(row.id, AnswerEntry, UserActor, Trim(row.message), row.promptId))
  }

  function ProjectedRow(f: Folding, row: LogRow): Option<Entry> {
    if row.id in f.suppressed then None else EntryFromRow(f, row)
  }

  function Entries(f: Folding, rows: seq<LogRow>): seq<Entry> {
    if rows == [] then []
    else
      var last := ProjectedRow(f, rows[|rows| - 1]);
      Entries(f, rows[..|rows| - 1]) + (if last.Some? then [last.value] else [])
  }

  function Transcript(logs: seq<LogRow>): seq<Entry> { Entries(Fold(logs, |logs|), logs) }

  // ---------- what folding does ----------

  lemma {:induction false} FoldableIsChat(logs: seq<LogRow>, n: nat)
    requires n <= |logs|
    ensures var c := FoldableBefore(logs, n);
            c.Some? ==> c.value < n && logs[c.value].event == ChatMessage && Trim(logs[c.value].message) != ""
                        && forall k :: c.value < k < n ==> logs[k].event == ChatMessage && Trim(logs[k].message) == ""
  {
    if n > 0 && logs[n - 1].event == ChatMessage && Trim(logs[n - 1].message) == "" {
      FoldableIsChat(logs, n - 1);
    }
  }

  /** The message a prompt folds is the nearest one before it that is not blank, if nothing but
      blank messages come in between. */
  lemma {:induction false} FoldableIsNearest(logs: seq<LogRow>, n: nat, c: nat)
    requires c < n <= |logs|
    ensures FoldableBefore(logs, n) == Some(c) <==>
              && logs[c].event == ChatMessage && Trim(logs[c].message) != ""
              && forall k :: c < k < n ==> logs[k].event == ChatMessage && Trim(logs[k].message) == ""
  {
    hide Trim;
    FoldableIsChat(logs, n);
    if c < n - 1 && logs[n - 1].event == ChatMessage && Trim(logs[n - 1].message) == "" {
      FoldableIsNearest(logs, n - 1, c);
    } else if c < n - 1 {
      assert FoldableBefore(logs, n) in {None, Some(n - 1)};
    }
  }

  /** Exactly the swallowed messages are suppressed. */
  lemma {:induction false} SuppressedIsExact(logs: seq<LogRow>, n: nat, c: nat)
    requires n <= |logs| && c < |logs| && UniqueIds(logs)
    ensures logs[c].id in Fold(logs, n).suppressed <==> exists p :: 0 <= p < n && Suppresses(logs, p, c)
  {
    hide Trim, IsPlaceholder;
    if n > 0 {
      SuppressedIsExact(logs, n - 1, c);
      FoldableIsChat(logs, n - 1);
      assert logs[c].id in Fold(logs, n).suppressed <==> logs[c].id in Fold(logs, n - 1).suppressed || Suppresses(logs, n - 1, c);
    }
  }

  /** A placeholder prompt carries the text of the message it swallows; no other row
      carries a text. */
  lemma {:induction false} FoldedTextIsExact(logs: seq<LogRow>, n: nat, p: nat)
    requires n <= |logs| && p < |logs| && UniqueIds(logs)
    ensures var f := Fold(logs, n);
            var c := FoldableBefore(logs, p);
            if p < n && logs[p].event == PromptRequested && IsPlaceholder(logs[p].message) && c.Some? then
              logs[p].id in f.foldedText && c.value < |logs| && f.foldedText[logs[p].id] == logs[c.value].message
            else logs[p].id !in f.foldedText
  {
    hide Trim, IsPlaceholder;
    FoldableIsChat(logs, p);
    if n > 0 {
      FoldedTextIsExact(logs, n - 1, p);
      FoldableIsChat(logs, n - 1);
    }
  }

  /** A message is swallowed by one prompt only. */
  lemma {:induction false} SuppressedByOne(logs: seq<LogRow>, p: nat, q: nat, c: nat)
    requires p < |logs| && q < |logs| && c < |logs|
    requires Suppresses(logs, p, c) && Suppresses(logs, q, c)
    ensures p == q
  {
    FoldableIsChat(logs, p);
    FoldableIsChat(logs, q);
    assert logs[p].event == PromptRequested && logs[q].event == PromptRequested;
  }

  /** The prompt that swallows a message shows its text as the question. */
  lemma {:induction false} SwallowedTextIsTheQuestion(logs: seq<LogRow>, p: nat, c: nat)
    requires p < |logs| && c < |logs| && UniqueIds(logs) && Suppresses(logs, p, c)
    ensures QuestionText(Fold(logs, |logs|), logs[p]) == Trim(logs[c].message) != ""
  {
    hide IsSpace, TrimStart, TrimEnd;
    FoldableIsChat(logs, p);
    FoldedTextIsExact(logs, |logs|, p);
    if IsPlaceholder(logs[p].message) {
      assert Fold(logs, |logs|).foldedText[logs[p].id] == logs[c].message;
    }
  }

  // ---------- the transcript ----------

  /** The number of entries before row n. */
  function PositionOf(logs: seq<LogRow>, n: nat): nat
    requires n <= |logs|
  {
    |Entries(Fold(logs, |logs|), logs[..n])|
  }

  lemma {:induction false} EntriesConcat(f: Folding, a: seq<LogRow>, b: seq<LogRow>)
    ensures Entries(f, a + b) == Entries(f, a) + Entries(f, b)
    decreases |b|
  {
    if b == [] {
      assert a + b == a;
    } else {
      assert (a + b)[..|a + b| - 1] == a + b[..|b| - 1];
      EntriesConcat(f, a, b[..|b| - 1]);
    }
  }

  /** Row i contributes the entry at position `PositionOf(i)`, or none; positions grow with
      the rows, so log order is kept, and no entry comes from two rows. */
  lemma {:induction false} EntryOfRow(logs: seq<LogRow>, i: nat)
    requires i < |logs|
    ensures var entry := ProjectedRow(Fold(logs, |logs|), logs[i]);
            && PositionOf(logs, i + 1) == PositionOf(logs, i) + (if entry.Some? then 1 else 0)
            && (entry.Some? ==> PositionOf(logs, i) < |Transcript(logs)| && Transcript(logs)[PositionOf(logs, i)] == entry.value)
            && PositionOf(logs, |logs|) == |Transcript(logs)|
  {
    var f := Fold(logs, |logs|);
    assert logs[..i + 1][..i] == logs[..i];
    assert logs == logs[..i + 1] + logs[i + 1..];
    assert logs[..|logs|] == logs;
    EntriesConcat(f, logs[..i + 1], logs[i + 1..]);
  }

  lemma {:induction false} BlankIsBlank()
    ensures Trim("") == ""
  {
  }

  /** Kind, actor and prompt id of a row's entry. */
  ghost predicate IsLabelled(entry: Entry, row: LogRow) {
    match row.event
    case ChatMessage =>
      && entry.kind == MessageEntry && entry.promptId == None
      && (entry.actor == UserActor <==> row.fromUser)
      && (entry.actor == AgentActor <==> !row.fromUser && row.source in {StageAgent, Reviewer})
    case PromptRequested => entry.kind == QuestionEntry && entry.actor == AgentActor && entry.promptId == row.promptId
    case PromptAnswered => entry.kind == AnswerEntry && entry.actor == UserActor && entry.promptId == row.promptId
  }

  /** Every row that should show shows: each chat message that is not blank and not
      swallowed, each prompt with an id, and each non-blank answer with an id has exactly
      its own entry, with a non-empty text; every other row has none. */
  lemma {:induction false} RowsShown(logs: seq<LogRow>, i: nat)
    requires i < |logs| && UniqueIds(logs)
    ensures var row := logs[i];
            var entry := ProjectedRow(Fold(logs, |logs|), row);
            && (entry.Some? <==>
                  match row.event
                  case ChatMessage => Trim(row.message) != "" && !exists p :: 0 <= p < |logs| && Suppresses(logs, p, i)
                  case PromptRequested => row.promptId.Some?
                  case PromptAnswered => row.promptId.Some? && Trim(row.message) != "")
            && (entry.Some? ==> entry.value.row == row.id && entry.value.text != "")
            && (entry.Some? && row.event != PromptRequested ==> entry.value.text == Trim(row.message))
            && (entry.Some? ==> IsLabelled(entry.value, row))
            && (entry.Some? && row.event == PromptRequested && !IsPlaceholder(row.message) ==>
                  entry.value.text == if Trim(row.message) == "" then "Awaiting your input." else Trim(row.message))
            && (entry.Some? && row.event == PromptRequested && IsPlaceholder(row.message) ==>
                  var c := FoldableBefore(logs, i);
                  entry.value.text == if c.Some? && c.value < i then Trim(logs[c.value].message) else "Awaiting your input.")
  {
    FoldableIsChat(logs, i);
    FoldedTextIsExact(logs, |logs|, i);
    BlankIsBlank();
    hide Trim, IsPlaceholder, Fold;
    SuppressedIsExact(logs, |logs|, i);
    if exists p :: 0 <= p < |logs| && Suppresses(logs, p, i) {
      var p :| 0 <= p < |logs| && Suppresses(logs, p, i);
      FoldableIsChat(logs, p);
    }
  }

  /** The text of a chat message is still in the transcript, as its own entry or as the
      question of the prompt that swallowed it. */
  predicate TextKept(logs: seq<LogRow>, c: nat)
    requires c < |logs|
  {
    var f := Fold(logs, |logs|);
    || (ProjectedRow(f, logs[c]).Some? && ProjectedRow(f, logs[c]).value.text == Trim(logs[c].message))
    || (exists p :: 0 <= p < |logs| && Suppresses(logs, p, c)
                    && ProjectedRow(f, logs[p]).Some? && ProjectedRow(f, logs[p]).value.text == Trim(logs[c].message))
  }

  /** Folding loses a message exactly when the prompt that swallowed it has no prompt id,
      since such a prompt has no entry. */
  lemma {:induction false} FoldingLosesOnlyToAnonymousPrompts(logs: seq<LogRow>, c: nat)
    requires c < |logs| && UniqueIds(logs) && logs[c].event == ChatMessage && Trim(logs[c].message) != ""
    ensures TextKept(logs, c) <==> forall p :: 0 <= p < |logs| && Suppresses(logs, p, c) ==> logs[p].promptId.Some?
  {
    hide Trim, IsPlaceholder, QuestionText, Fold;
    RowsShown(logs, c);
    SuppressedIsExact(logs, |logs|, c);
    if exists p :: 0 <= p < |logs| && Suppresses(logs, p, c) {
      var p :| 0 <= p < |logs| && Suppresses(logs, p, c);
      RowsShown(logs, p);
      SwallowedTextIsTheQuestion(logs, p, c);
      forall q | 0 <= q < |logs| && Suppresses(logs, q, c) ensures q == p {
        SuppressedByOne(logs, p, q, c);
      }
      PromptNotSuppressed(logs, p);
    }
  }

  /** A chat message followed by a prompt with the same text and no id: the log's only text
      is in no entry of the transcript. */
  lemma {:induction false} AnAnonymousPromptLosesItsQuestion(source: ChatSource)
    ensures var logs := [LogRow(RowId(0), ChatMessage, "Which one?", None, source, false),
                         LogRow(RowId(1), PromptRequested, "Which one?", None, source, false)];
            !TextKept(logs, 0) && Transcript(logs) == []
  {
    var logs := [LogRow(RowId(0), ChatMessage, "Which one?", None, source, false),
                 LogRow(RowId(1), PromptRequested, "Which one?", None, source, false)];
    TrimKeepsTrimmed("Which one?");
    hide Trim, IsPlaceholder;
    assert FoldableBefore(logs, 1) == Some(0);
    assert Suppresses(logs, 1, 0);
    FoldingLosesOnlyToAnonymousPrompts(logs, 0);
    assert Fold(logs, 1) == Folding({}, map[]);
    assert RowId(0) in Fold(logs, 2).suppressed;
    assert logs[..1] == [logs[0]] && logs[..1][..0] == [];
    assert Entries(Fold(logs, 2), logs[..1]) == [];
  }

  lemma {:induction false} PromptNotSuppressed(logs: seq<LogRow>, p: nat)
    requires p < |logs| && UniqueIds(logs) && logs[p].event == PromptRequested
    ensures logs[p].id !in Fold(logs, |logs|).suppressed
  {
    SuppressedIsExact(logs, |logs|, p);
    if exists q :: 0 <= q < |logs| && Suppresses(logs, q, p) {
      var q :| 0 <= q < |logs| && Suppresses(logs, q, p);
      FoldableIsChat(logs, q);
    }
  }

  // ---------- the loops ----------

  /** `findFoldablePreviousChatMessage`: the backwards loop. */
  method FindFoldable(logs: seq<LogRow>, start: nat) returns (found: Option<nat>)
    requires start <= |logs|
    ensures found == FoldableBefore(logs, start)
  {
    var i := start;
    while i > 0
      invariant 0 <= i <= start && FoldableBefore(logs, start) == FoldableBefore(logs, i)
    {
      if logs[i - 1].event != ChatMessage { return None; }
      if Trim(logs[i - 1].message) != "" { return Some(i - 1); }
      i := i - 1;
    }
    found := None;
  }

  /** `foldPromptMessages`: the loop that fills the set and the map. */
  method FoldPromptMessages(logs: seq<LogRow>) returns (suppressed: set<RowId>, foldedText: map<RowId, string>)
    ensures Folding(suppressed, foldedText) == Fold(logs, |logs|)
  {
    suppressed, foldedText := {}, map[];
    for n := 0 to |logs|
      invariant Folding(suppressed, foldedText) == Fold(logs, n)
    {
      if logs[n].event == PromptRequested {
        var found := FindFoldable(logs, n);
        FoldableIsChat(logs, n);
        if found.Some? {
          var previous := logs[found.value];
          if IsPlaceholder(logs[n].message) || Trim(previous.message) == Trim(logs[n].message) {
            suppressed := suppressed + {previous.id};
            if IsPlaceholder(logs[n].message) {
              foldedText := foldedText[logs[n].id := previous.message];
            }
          }
        }
      }
    }
  }

  /** `buildConversation`: fold, then project row by row. */
  method BuildConversation(logs: seq<LogRow>) returns (entries: seq<Entry>)
    ensures entries == Transcript(logs)
  {
    var suppressed, foldedText := FoldPromptMessages(logs);
    var f := Folding(suppressed, foldedText);
    entries := [];
    for n := 0 to |logs|
      invariant entries == Entries(f, logs[..n])
    {
      assert logs[..n + 1][..n] == logs[..n];
      if logs[n].id !in suppressed {
        var entry := EntryFromRow(f, logs[n]);
        if entry.Some? { entries := entries + [entry.value]; }
      }
    }
    assert logs[..|logs|] == logs;
  }
}
