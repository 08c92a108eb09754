/** Model of how a recovery scope survives a restart (`recovery.ts`, `resume.ts`, the
    `normalize…Resume` functions of `workflow.ts`): written as a record file and two row
    columns, read back, and turned into the place where the workflow starts again.

    `Number` is the host's, and so is the folding of stage ids into directory names. */
module ResumeScope {
  import opened Outcomes
  import opened Text
  import opened ProjectPipeline

  // ---------- data ----------

  datatype Scope = StageScope(stageId: string) | StoryScope(waveNumber: int, storyId: string) | RunScope

  datatype ScopeType = StageType | StoryType | RunType

  datatype RecoveryRecord = RecoveryRecord(scope: Scope, summary: string, createdAt: int, updatedAt: int)

  /** A directory below that of the run, segment by segment, as `join` normalises it. */
  type Directory = seq<string>

  /** The columns of a run row that a resume reads. */
  datatype Row = Row(
    hasRecovery: bool,
    scopeType: Option<ScopeType>,
    scopeRef: Option<string>,
    summary: string,
    currentStage: Option<string>,
    updatedAt: int)

  type ToNumber = string -> Option<int>

  ghost predicate ReadsNumerals(toNumber: ToNumber) {
    forall n: int :: toNumber(SignedDecimal(n)) == Some(n)
  }

  // ---------- encoding and decoding a scope ----------

  function TypeOf(scope: Scope): ScopeType {
    match scope
    case StageScope(_) => StageType
    case StoryScope(_, _) => StoryType
    case RunScope => RunType
  }

  /** `scopeRef`. */
  function ScopeRef(scope: Scope): Option<string> {
    match scope
    case StageScope(stageId) => Some(stageId)
    case StoryScope(waveNumber, storyId) => Some(SignedDecimal(waveNumber) + "/" + storyId)
    case RunScope => None
  }

  /** One more segment: an empty one or "." goes, and ".." goes with the segment before it. */
  function Enter(dir: Directory, segment: string): Directory {
    if segment == "" || segment == "." then dir
    else if segment == ".." && dir != [] && dir[|dir| - 1] != ".." then dir[..|dir| - 1]
    else dir + [segment]
  }

  /** `join`. */
  function Join(dir: Directory, segments: seq<string>): Directory
    decreases |segments|
  {
    if segments == [] then dir else Join(Enter(dir, segments[0]), segments[1..])
  }

  lemma {:induction false} JoinConcat(dir: Directory, a: seq<string>, b: seq<string>)
    ensures Join(dir, a + b) == Join(Join(dir, a), b)
    decreases |a|
  {
    if a == [] {
      assert a + b == b;
    } else {
      assert (a + b)[1..] == a[1..] + b;
      JoinConcat(Enter(dir, a[0]), a[1..], b);
    }
  }

  function StoriesDir(waveNumber: int): Directory {
    ["stages", "execution", "waves", "wave-" + SignedDecimal(waveNumber), "stories"]
  }

  /** The directory of a scope's `recovery.json`. The stage id is sanitized, the story id is
      joined as it is. */
  function PathOf(sanitize: string -> string, scope: Scope): Directory {
    match scope
    case StageScope(stageId) => Join(["stages"], SplitOn(sanitize(stageId), '/'))
    case StoryScope(waveNumber, storyId) => Join(StoriesDir(waveNumber), SplitOn(storyId, '/') + ["ralph"])
    case RunScope => []
  }

  /** The scope `loadResumeReadiness` looks a record up for, if any. */
  function Decode(toNumber: ToNumber, row: Row): Option<Scope> {
    var ref := if row.scopeRef.Some? then row.scopeRef.value else "";
    if row.scopeType == Some(StageType) && ref != "" then Some(StageScope(ref))
    else if row.scopeType == Some(StoryType) && ref != "" then
      var parts := SplitOn(ref, '/');
      if |parts| > 1 && toNumber(parts[0]).Some? then Some(StoryScope(toNumber(parts[0]).value, parts[1])) else None
    else if row.scopeType == Some(RunType) then Some(RunScope)
    else None
  }

  type Files = map<Directory, RecoveryRecord>

  /** The record a resume works with: the file's, or one made up for the whole run. */
  function LoadRecord(toNumber: ToNumber, sanitize: string -> string, files: Files, row: Row): RecoveryRecord {
    var scope := Decode(toNumber, row);
    if scope.Some? && PathOf(sanitize, scope.value) in files then files[PathOf(sanitize, scope.value)]
    else RecoveryRecord(RunScope, row.summary, row.updatedAt, row.updatedAt)
  }

  /** `writeRecoveryRecord`: a record that replaces one keeps its creation time. */
  function Written(sanitize: string -> string, files: Files, scope: Scope, summary: string, now: int): Files {
    var path := PathOf(sanitize, scope);
    files[path := RecoveryRecord(scope, summary, if path in files then files[path].createdAt else now, now)]
  }

  function Projected(row: Row, scope: Scope): Row {
    row.(hasRecovery := true, scopeType := Some(TypeOf(scope)), scopeRef := ScopeRef(scope))
  }

  /** Every record lies in the directory of its own scope. */
  ghost predicate RecordsInPlace(sanitize: string -> string, files: Files) {
    forall dir :: dir in files ==> PathOf(sanitize, files[dir].scope) == dir
  }

  /** Scopes that survive the encoding: a stage id is not empty, a story id has no "/". */
  predicate Encodable(scope: Scope) {
    match scope
    case StageScope(stageId) => stageId != ""
    case StoryScope(_, storyId) => Without(storyId, '/')
    case RunScope => true
  }

  lemma {:induction false} DecodeEncoded(toNumber: ToNumber, row: Row, scope: Scope)
    requires ReadsNumerals(toNumber)
    ensures Decode(toNumber, Projected(row, scope)) == Some(scope) <==> Encodable(scope)
    ensures scope.StoryScope? ==> Decode(toNumber, Projected(row, scope)).Some? && Decode(toNumber, Projected(row, scope)).value.StoryScope?
    ensures scope.StageScope? && !Encodable(scope) ==> Decode(toNumber, Projected(row, scope)).None?
  {
    if scope.StoryScope? {
      var n, id := scope.waveNumber, scope.storyId;
      NumeralHasNo(n, '/');
      SplitFirst(SignedDecimal(n), id, '/');
      SplitNone(id, '/');
      assert ScopeRef(scope) == Some(SignedDecimal(n) + ['/'] + id);
      assert ScopeRef(scope).value != "";
      hide SplitOn, SignedDecimal;
      assert SplitOn(ScopeRef(scope).value, '/')[1] == SplitOn(id, '/')[0];
    }
  }

  /** The directory a story id's part before the first "/" names. */
  function FirstDir(waveNumber: int, storyId: string): Directory {
    Join(StoriesDir(waveNumber), [SplitOn(storyId, '/')[0]])
  }

  /** A stage id is not empty; what follows the first "/" of a story id leads back to the
      directory it starts from. */
  predicate LeadsBack(scope: Scope) {
    match scope
    case StageScope(stageId) => stageId != ""
    case StoryScope(waveNumber, storyId) =>
      Join(FirstDir(waveNumber, storyId), SplitOn(storyId, '/')[1..]) == FirstDir(waveNumber, storyId)
    case RunScope => true
  }

  lemma {:induction false} EncodableLeadsBack(scope: Scope)
    requires Encodable(scope)
    ensures LeadsBack(scope)
  {
    if scope.StoryScope? {
      SplitNone(scope.storyId, '/');
      assert SplitOn(scope.storyId, '/')[1..] == [];
    }
  }

  /** The story scope a written one is decoded to: the same wave, and the story id up to the
      first "/". */
  lemma {:induction false} DecodedStory(toNumber: ToNumber, row: Row, waveNumber: int, storyId: string)
    requires ReadsNumerals(toNumber)
    ensures Decode(toNumber, Projected(row, StoryScope(waveNumber, storyId)))
            == Some(StoryScope(waveNumber, SplitOn(storyId, '/')[0]))
  {
    NumeralHasNo(waveNumber, '/');
    SplitFirst(SignedDecimal(waveNumber), storyId, '/');
    var scope := StoryScope(waveNumber, storyId);
    assert ScopeRef(scope) == Some(SignedDecimal(waveNumber) + ['/'] + storyId);
    assert ScopeRef(scope).value != "";
    hide SplitOn, SignedDecimal;
  }

  lemma {:induction false} RalphDirs(a: Directory, b: Directory)
    ensures Join(a, ["ralph"]) == Join(b, ["ralph"]) <==> a == b
  {
    assert Join(a, ["ralph"]) == a + ["ralph"] && Join(b, ["ralph"]) == b + ["ralph"];
    assert (a + ["ralph"])[..|a|] == a && (b + ["ralph"])[..|b|] == b;
  }

  lemma {:induction false} StoryFound(sanitize: string -> string, waveNumber: int, storyId: string)
    ensures PathOf(sanitize, StoryScope(waveNumber, SplitOn(storyId, '/')[0]))
            == PathOf(sanitize, StoryScope(waveNumber, storyId))
       <==> LeadsBack(StoryScope(waveNumber, storyId))
  {
    var parts, base := SplitOn(storyId, '/'), StoriesDir(waveNumber);
    var first := parts[0];
    FirstPartIsWhole(storyId);
    assert parts == [first] + parts[1..];
    JoinConcat(base, parts, ["ralph"]);
    JoinConcat(base, [first], parts[1..]);
    JoinConcat(base, [first], ["ralph"]);
    hide Join, SplitOn, StoriesDir;
    RalphDirs(Join(base, [first]), Join(base, parts));
  }

  lemma {:induction false} FirstPartIsWhole(text: string)
    ensures SplitOn(SplitOn(text, '/')[0], '/') == [SplitOn(text, '/')[0]]
  {
    var first := SplitOn(text, '/')[0];
    assert Without(first, '/');
    SplitNone(first, '/');
  }

  lemma {:induction false} FoundExactly(toNumber: ToNumber, sanitize: string -> string, files: Files, row: Row,
                                        scope: Scope)
    requires RecordsInPlace(sanitize, files) && PathOf(sanitize, scope) in files
             && files[PathOf(sanitize, scope)].scope == scope
    requires var d := Decode(toNumber, Projected(row, scope));
             if d.Some? then PathOf(sanitize, d.value) == PathOf(sanitize, scope) <==> LeadsBack(scope)
             else !LeadsBack(scope) && scope != RunScope
    requires scope == RunScope ==> LeadsBack(scope)
    ensures LoadRecord(toNumber, sanitize, files, Projected(row, scope)).scope == scope <==> LeadsBack(scope)
    ensures LeadsBack(scope)
            ==> LoadRecord(toNumber, sanitize, files, Projected(row, scope)) == files[PathOf(sanitize, scope)]
  {
    hide Decode, LeadsBack, PathOf, Projected;
  }

  /** The record just written is the one a resume loads exactly when what follows the first
      "/" of a story id leads back to the same directory, or the stage id is not empty;
      otherwise the resume works on another scope. */
  lemma {:induction false} RecordIsFoundAgain(toNumber: ToNumber, sanitize: string -> string, files: Files, row: Row,
                                              scope: Scope,
                                              summary: string, now: int)
    requires ReadsNumerals(toNumber) && RecordsInPlace(sanitize, files)
    ensures var after := Written(sanitize, files, scope, summary, now);
            var record := LoadRecord(toNumber, sanitize, after, Projected(row, scope));
            && RecordsInPlace(sanitize, after)
            && (record.scope == scope <==> LeadsBack(scope))
            && (LeadsBack(scope) ==> record.summary == summary)
            && (Encodable(scope) ==> record.scope == scope)
  {
    if Encodable(scope) {
      EncodableLeadsBack(scope);
    }
    var after := Written(sanitize, files, scope, summary, now);
    DecodeEncoded(toNumber, row, scope);
    if scope.StoryScope? {
      DecodedStory(toNumber, row, scope.waveNumber, scope.storyId);
      StoryFound(sanitize, scope.waveNumber, scope.storyId);
    }
    hide Decode, ScopeRef, SplitOn, Join, FirstDir, PathOf, LoadRecord, Projected;
    FoundExactly(toNumber, sanitize, after, row, scope);
  }

  lemma {:induction false} TwoPartsLeadBack(waveNumber: int, first: string, second: string)
    requires Without(first, '/') && Without(second, '/')
    ensures var id := first + "/" + second;
            LeadsBack(StoryScope(waveNumber, id)) <==> Enter(FirstDir(waveNumber, id), second) == FirstDir(waveNumber, id)
  {
    var id := first + "/" + second;
    assert id == first + ['/'] + second;
    SplitFirst(first, second, '/');
    SplitNone(second, '/');
    assert SplitOn(id, '/')[1..] == [second];
    var dir := FirstDir(waveNumber, id);
    hide FirstDir, Enter;
    assert Join(dir, [second]) == Join(Enter(dir, second), []);
  }

  /** A story id that ends in "/." is found again although it does not survive the encoding,
      one that ends in "/b" is not. */
  lemma {:induction false} DotSegmentsLeadBack(waveNumber: int, first: string)
    requires Without(first, '/')
    ensures LeadsBack(StoryScope(waveNumber, first + "/" + "."))
            && !Encodable(StoryScope(waveNumber, first + "/" + "."))
    ensures !LeadsBack(StoryScope(waveNumber, first + "/" + "b"))
  {
    TwoPartsLeadBack(waveNumber, first, ".");
    TwoPartsLeadBack(waveNumber, first, "b");
    assert (first + "/" + ".")[|first|] == '/';
    var dir := FirstDir(waveNumber, first + "/" + "b");
    hide FirstDir, LeadsBack;
    assert "b"[0] != '.' && |"b"| == 1;
    assert |Enter(dir, "b")| == |dir| + 1;
  }

  lemma {:induction false} PlainSegment(dir: Directory, segment: string)
    requires Without(segment, '/') && segment !in {"", ".", ".."}
    ensures SplitOn(segment, '/') == [segment]
    ensures Join(dir, [segment]) == dir + [segment]
    ensures Join(dir, [segment, "ralph"]) == dir + [segment, "ralph"]
  {
    SplitNone(segment, '/');
    assert [segment, "ralph"][1..] == ["ralph"];
    assert Join(dir + [segment], ["ralph"]) == dir + [segment] + ["ralph"];
  }

  /** Dot segments are folded: "." and "" stay where they are, ".." goes back, but not behind
      the directory the path starts from. */
  lemma {:induction false} DotsAreFolded(dir: Directory, segment: string)
    requires segment !in {"", ".", ".."}
    ensures Join(dir, [""]) == dir && Join(dir, ["."]) == dir
    ensures Join(dir, [segment, ".."]) == dir
    ensures Join([], [".."]) == [".."] && Join([], ["..", ".."]) == ["..", ".."]
  {
    assert [segment, ".."][1..] == [".."] && (dir + [segment])[..|dir|] == dir;
    assert Join(dir + [segment], [".."]) == dir;
    assert ["..", ".."][1..] == [".."] && Enter([".."], "..") == ["..", ".."];
    assert Join([".."], [".."]) == ["..", ".."];
  }

  /** Where the record of a scope lies, for ids that are plain directory names. */
  lemma {:induction false} RecordsLieIn(sanitize: string -> string, stageId: string, waveNumber: int, storyId: string)
    requires Without(sanitize(stageId), '/') && sanitize(stageId) !in {"", ".", ".."}
    requires Without(storyId, '/') && storyId !in {"", ".", ".."}
    ensures PathOf(sanitize, StageScope(stageId)) == ["stages", sanitize(stageId)]
    ensures PathOf(sanitize, StoryScope(waveNumber, storyId))
         == ["stages", "execution", "waves", "wave-" + SignedDecimal(waveNumber), "stories", storyId, "ralph"]
    ensures PathOf(sanitize, RunScope) == []
  {
    PlainSegment(["stages"], sanitize(stageId));
    PlainSegment(StoriesDir(waveNumber), storyId);
    hide Join, SplitOn, SignedDecimal;
    assert [storyId] + ["ralph"] == [storyId, "ralph"];
  }

  /** Writing a record again keeps the time of the first one, takes the summary and the time
      of the second, and touches no other record. */
  lemma {:induction false} RewritingKeepsCreation(sanitize: string -> string, files: Files, scope: Scope, first: string,
                                                  earlier: int, second: string, now: int, other: Directory)
    requires PathOf(sanitize, scope) !in files && other != PathOf(sanitize, scope)
    ensures var once := Written(sanitize, files, scope, first, earlier);
            var twice := Written(sanitize, once, scope, second, now);
            && once[PathOf(sanitize, scope)] == RecoveryRecord(scope, first, earlier, earlier)
            && twice[PathOf(sanitize, scope)] == RecoveryRecord(scope, second, earlier, now)
            && (other in twice <==> other in files) && (other in files ==> twice[other] == files[other])
  {
    hide PathOf;
  }

  class RecoveryFiles {
    const sanitize: string -> string
    var files: Files

    constructor (sanitize: string -> string)
      ensures this.sanitize == sanitize && files == map[]
    {
      this.sanitize := sanitize;
      files := map[];
    }

    method ReadRecoveryRecord(scope: Scope) returns (record: Option<RecoveryRecord>)
      ensures record == if PathOf(sanitize, scope) in files then Some(files[PathOf(sanitize, scope)]) else None
    {
      var path := PathOf(sanitize, scope);
      record := if path in files then Some(files[path]) else None;
    }

    method WriteRecoveryRecord(scope: Scope, summary: string, now: int) returns (next: RecoveryRecord)
      modifies this
      ensures files == Written(sanitize, old(files), scope, summary, now)
      ensures next == files[PathOf(sanitize, scope)]
    {
      var existing := ReadRecoveryRecord(scope);
      var createdAt := if existing.Some? then existing.value.createdAt else now;
      next := RecoveryRecord(scope, summary, createdAt, now);
      files := files[PathOf(sanitize, scope) := next];
    }
  }

  // ---------- readiness ----------

  datatype NotNow = ResumeInProgress | PromptOpen

  datatype Readiness = NotFound | NoRecovery | NotResumable(reason: NotNow) | Ready(record: RecoveryRecord)

  /** What the resume looks at besides the files: the row, and the state of the run. */
  datatype Situation = Situation(row: Option<Row>, inFlight: bool, promptOpen: bool, workspaceFound: bool)

  /** `loadResumeReadiness`. */
  function LoadResumeReadiness(toNumber: ToNumber, sanitize: string -> string, files: Files, s: Situation): Readiness {
    if s.row.None? then NotFound
    else if s.inFlight then NotResumable(ResumeInProgress)
    else if s.promptOpen then NotResumable(PromptOpen)
    else if !s.row.value.hasRecovery || !s.workspaceFound then NoRecovery
    else Ready(LoadRecord(toNumber, sanitize, files, s.row.value))
  }

  /** Which answer a resume gets, by the first thing that stands in its way: no such run, a
      resume of it under way, a prompt of it open, nothing to recover, no workspace. */
  lemma {:induction false} ReadinessSaysWhy(toNumber: ToNumber, sanitize: string -> string, files: Files, s: Situation)
    ensures var ready := LoadResumeReadiness(toNumber, sanitize, files, s);
            && (ready == NotFound <==> s.row.None?)
            && (ready == NotResumable(ResumeInProgress) <==> s.row.Some? && s.inFlight)
            && (ready == NotResumable(PromptOpen) <==> s.row.Some? && !s.inFlight && s.promptOpen)
            && (ready == NoRecovery <==> s.row.Some? && !s.inFlight && !s.promptOpen
                                         && (!s.row.value.hasRecovery || !s.workspaceFound))
            && (ready.Ready? <==> s.row.Some? && !s.inFlight && !s.promptOpen && s.row.value.hasRecovery && s.workspaceFound)
  {
    hide LoadRecord;
  }

  /** A run that can be resumed but whose scope does not read back, or has no record file, is
      resumed as a whole, with the summary and the time of its row. */
  lemma {:induction false} RecordIsMadeUp(toNumber: ToNumber, sanitize: string -> string, files: Files, s: Situation)
    requires LoadResumeReadiness(toNumber, sanitize, files, s).Ready?
    ensures var row, record := s.row.value, LoadResumeReadiness(toNumber, sanitize, files, s).record;
            var scope := Decode(toNumber, row);
            if scope.Some? && PathOf(sanitize, scope.value) in files then record == files[PathOf(sanitize, scope.value)]
            else record.scope == RunScope && record.summary == row.summary && record.createdAt == record.updatedAt == row.updatedAt
  {
    hide Decode, PathOf;
  }

  /** A column pair that was not written from a scope: without a reference there is no stage
      and no story, and a story needs a wave number before a "/". */
  lemma {:induction false} UndecodableColumns(toNumber: ToNumber, row: Row)
    ensures row.scopeType != Some(RunType) && (row.scopeRef.None? || row.scopeRef == Some(""))
            ==> Decode(toNumber, row).None?
    ensures row.scopeType.None? ==> Decode(toNumber, row).None?
    ensures row.scopeType == Some(RunType) ==> Decode(toNumber, row) == Some(RunScope)
    ensures row.scopeType == Some(StageType) && row.scopeRef.Some? && row.scopeRef.value != "" ==>
              Decode(toNumber, row) == Some(StageScope(row.scopeRef.value))
    ensures row.scopeType == Some(StoryType) && row.scopeRef.Some? && Without(row.scopeRef.value, '/') ==>
              Decode(toNumber, row).None?
  {
    if row.scopeRef.Some? {
      SplitNone(row.scopeRef.value, '/');
    }
    hide SplitOn;
  }

  // ---------- stage ids ----------

  datatype Top = BrainstormTop | VisualTop | FrontendTop | MergeGateTop | ProjectTop(stage: StageId)

  function StageText(s: StageId): string {
    match s
    case Requirements => "requirements"
    case Architecture => "architecture"
    case Planning => "planning"
    case Execution => "execution"
    case ProjectReview => "project-review"
    case Qa => "qa"
    case Documentation => "documentation"
    case Handoff => "handoff"
  }

  function TopText(top: Top): string {
    match top
    case BrainstormTop => "brainstorm"
    case VisualTop => "visual-companion"
    case FrontendTop => "frontend-design"
    case MergeGateTop => "merge-gate"
    case ProjectTop(s) => StageText(s)
  }

  function Tops(): seq<Top> {
    [BrainstormTop, VisualTop, FrontendTop, MergeGateTop, ProjectTop(Requirements), ProjectTop(Architecture), ProjectTop(Planning),
     ProjectTop(Execution), ProjectTop(ProjectReview), ProjectTop(Qa), ProjectTop(Documentation), ProjectTop(Handoff)]
  }

  function FindTop(text: string, tops: seq<Top>): Option<Top> {
    if tops == [] then None else if TopText(tops[0]) == text then Some(tops[0]) else FindTop(text, tops[1..])
  }

  /** The stage the part before the first "/" names. */
  function TopOf(stageId: string): Option<Top> { FindTop(SplitOn(stageId, '/')[0], Tops()) }

  /** The first two letters tell the stages apart. */
  function Initials(top: Top): (char, char) {
    match top
    case BrainstormTop => ('b', 'r')
    case VisualTop => ('v', 'i')
    case FrontendTop => ('f', 'r')
    case MergeGateTop => ('m', 'e')
    case ProjectTop(s) =>
      match s
      case Requirements => ('r', 'e')
      case Architecture => ('a', 'r')
      case Planning => ('p', 'l')
      case Execution => ('e', 'x')
      case ProjectReview => ('p', 'r')
      case Qa => ('q', 'a')
      case Documentation => ('d', 'o')
      case Handoff => ('h', 'a')
  }

  lemma {:induction false} TextStarts(top: Top)
    ensures |TopText(top)| >= 2 && (TopText(top)[0], TopText(top)[1]) == Initials(top)
  {
  }

  lemma {:induction false} StageTextIsWhole(s: StageId)
    ensures Without(StageText(s), '/')
  {
  }

  lemma {:induction false} TextIsWhole(top: Top)
    ensures Without(TopText(top), '/')
  {
    if top.ProjectTop? {
      StageTextIsWhole(top.stage);
    }
  }

  lemma {:induction false} TextsDiffer(a: Top, b: Top)
    ensures TopText(a) == TopText(b) <==> a == b
  {
    TextStarts(a);
    TextStarts(b);
    hide TopText;
  }

  lemma {:induction false} FindTopFinds(top: Top, tops: seq<Top>)
    requires top in tops
    ensures FindTop(TopText(top), tops) == Some(top)
  {
    hide TopText;
    TextsDiffer(tops[0], top);
    if tops[0] != top {
      FindTopFinds(top, tops[1..]);
    }
  }

  lemma {:induction false} FindTopIsRight(text: string, tops: seq<Top>)
    ensures FindTop(text, tops).Some? ==> TopText(FindTop(text, tops).value) == text
  {
    hide TopText;
    if tops != [] {
      FindTopIsRight(text, tops[1..]);
    }
  }

  lemma {:induction false} AllTops(top: Top)
    ensures top in Tops()
  {
    match top {
      case BrainstormTop => assert Tops()[0] == top;
      case VisualTop => assert Tops()[1] == top;
      case FrontendTop => assert Tops()[2] == top;
      case MergeGateTop => assert Tops()[3] == top;
      case ProjectTop(s) => assert Tops()[4 + Index(s)] == top;
    }
  }

  /** A stage id is the text of its top stage, alone or with a "/" and more behind it. */
  ghost predicate Under(stageId: string, top: Top) {
    stageId == TopText(top) || TopText(top) + "/" <= stageId
  }

  /** `split("/")[0]` names a stage exactly when the id lies under it. */
  lemma {:induction false} TopOfIs(stageId: string, top: Top)
    ensures TopOf(stageId) == Some(top) <==> Under(stageId, top)
  {
    TextIsWhole(top);
    AllTops(top);
    FindTopFinds(top, Tops());
    FindTopIsRight(SplitOn(stageId, '/')[0], Tops());
    hide TopText, FindTop, Tops;
    FirstPart(stageId, TopText(top));
  }

  lemma {:induction false} FirstPart(s: string, t: string)
    requires Without(t, '/')
    ensures SplitOn(s, '/')[0] == t <==> s == t || t + "/" <= s
  {
    var i := IndexOf(s, '/');
    if s == t {
      SplitNone(t, '/');
    } else if t + "/" <= s {
      assert s[|t|] == '/' && forall k :: 0 <= k < |t| ==> s[k] == t[k];
      IndexIs(s, '/', |t|);
    }
    if SplitOn(s, '/')[0] == t && i < |s| {
      assert s[..i] + [s[i]] == s[..i + 1];
    }
  }

  // ---------- the execution part of a stage id ----------

  datatype ExecutionResume = ExecutionResume(waveNumber: Option<int>, storyId: Option<string>, rerunTestWriter: bool)

  datatype Word = Waves | Stories | TestWriter

  function WordText(w: Word): string {
    match w
    case Waves => "waves"
    case Stories => "stories"
    case TestWriter => "test-writer"
  }

  /** The stage id of a story's test-writer stage (`testWriter.ts`). */
  function TestWriterStageId(waveNumber: nat, storyId: string): string {
    StageText(Execution) + "/" + WordText(Waves) + "/" + Decimal(waveNumber) + "/" + WordText(Stories) + "/" + storyId + "/" + WordText(TestWriter)
  }

  predicate IsTestWriterPath(parts: seq<string>) {
    && |parts| == 6
    && parts[0] == StageText(Execution) && parts[1] == WordText(Waves)
    && parts[2] != "" && AllDigits(parts[2])
    && parts[3] == WordText(Stories) && parts[4] != "" && parts[5] == WordText(TestWriter)
  }

  /** `/^execution\/waves\/(\d+)\/stories\/([^/]+)\/test-writer$/`. */
  function NormalizeExecutionResume(stageId: string): Option<ExecutionResume> {
    var parts := SplitOn(stageId, '/');
    if IsTestWriterPath(parts) then Some(ExecutionResume(Some(DigitsValue(parts[2])), Some(parts[4]), true)) else None
  }

  lemma {:induction false} WordsAreWhole(w: Word)
    ensures Without(WordText(w), '/')
  {
  }

  lemma {:induction false} PartsLengthen(a: string, b: string, c: char)
    ensures |SplitOn(a + [c] + b, c)| == |SplitOn(a, c)| + |SplitOn(b, c)|
    ensures SplitOn(a + [c] + b, c)[0] == SplitOn(a, c)[0]
    decreases |a|
  {
    var s, i := a + [c] + b, IndexOf(a, c);
    hide SplitOn;
    if i == |a| {
      SplitFirst(a, b, c);
      SplitNone(a, c);
    } else {
      PartsLengthen(a[i + 1..], b, c);
      assert a == a[..i] + [c] + a[i + 1..];
      assert s == a[..i] + [c] + (a[i + 1..] + [c] + b);
      SplitFirst(a[..i], a[i + 1..] + [c] + b, c);
      SplitFirst(a[..i], a[i + 1..], c);
    }
  }

  lemma {:induction false} TestWriterParts(waveNumber: nat, storyId: string)
    ensures var tail := SplitOn(storyId + ['/'] + WordText(TestWriter), '/');
            SplitOn(TestWriterStageId(waveNumber, storyId), '/') ==
            [StageText(Execution)] + ([WordText(Waves)] + ([Decimal(waveNumber)] + ([WordText(Stories)] + tail)))
  {
    var e, w, n, t, x := StageText(Execution), WordText(Waves), Decimal(waveNumber), WordText(Stories), WordText(TestWriter);
    StageTextIsWhole(Execution);
    WordsAreWhole(Waves);
    WordsAreWhole(Stories);
    NumeralHasNo(waveNumber, '/');
    assert TestWriterStageId(waveNumber, storyId) == e + ['/'] + (w + ['/'] + (n + ['/'] + (t + ['/'] + (storyId + ['/'] + x))));
    hide StageText, TopText, WordText, Decimal, SplitOn, TestWriterStageId;
    SplitFirst(e, w + ['/'] + (n + ['/'] + (t + ['/'] + (storyId + ['/'] + x))), '/');
    SplitFirst(w, n + ['/'] + (t + ['/'] + (storyId + ['/'] + x)), '/');
    SplitFirst(n, t + ['/'] + (storyId + ['/'] + x), '/');
    SplitFirst(t, storyId + ['/'] + x, '/');
  }

  /** A test-writer stage id normalizes to its own wave and story exactly when the story id
      is not empty and has no "/"; otherwise it names no story at all. */
  lemma {:induction false} TestWriterRestarts(waveNumber: nat, storyId: string)
    ensures NormalizeExecutionResume(TestWriterStageId(waveNumber, storyId)) ==
            if storyId != "" && Without(storyId, '/')
            then Some(ExecutionResume(Some(waveNumber), Some(storyId), true)) else None
  {
    var x := WordText(TestWriter);
    var tail := SplitOn(storyId + ['/'] + x, '/');
    TestWriterParts(waveNumber, storyId);
    TestWriterTail(storyId);
    DecimalValue(waveNumber);
    hide StageText, WordText, Decimal, SplitOn, TestWriterStageId, DigitsValue, IsTestWriterPath;
    PathShape(Decimal(waveNumber), tail);
  }

  lemma {:induction false} TestWriterTail(storyId: string)
    ensures var tail := SplitOn(storyId + ['/'] + WordText(TestWriter), '/');
            if Without(storyId, '/') then tail == [storyId, WordText(TestWriter)] else |tail| > 2
  {
    var x := WordText(TestWriter);
    WordsAreWhole(TestWriter);
    SplitNone(x, '/');
    SplitNone(storyId, '/');
    PartsLengthen(storyId, x, '/');
    hide WordText, SplitOn;
    if Without(storyId, '/') {
      SplitFirst(storyId, x, '/');
    } else if |SplitOn(storyId, '/')| == 1 {
      SplitAlone(storyId);
    }
  }

  lemma {:induction false} SplitAlone(s: string)
    requires |SplitOn(s, '/')| == 1
    ensures Without(s, '/')
  {
  }

  lemma {:induction false} PathShape(digits: string, tail: seq<string>)
    requires digits != "" && AllDigits(digits)
    ensures var parts := [StageText(Execution)] + ([WordText(Waves)] + ([digits] + ([WordText(Stories)] + tail)));
            && (IsTestWriterPath(parts) <==> |tail| == 2 && tail[0] != "" && tail[1] == WordText(TestWriter))
            && parts[2] == digits && (|tail| > 0 ==> parts[4] == tail[0])
  {
    hide StageText, WordText, AllDigits;
  }

  /** Only ids of this shape name a story. */
  lemma {:induction false} OnlyTestWritersNameAStory(stageId: string)
    ensures var resume, parts := NormalizeExecutionResume(stageId), SplitOn(stageId, '/');
            resume.Some? <==>
              && |parts| == 6 && parts[0] == "execution" && parts[1] == "waves" && parts[3] == "stories" && parts[5] == "test-writer"
              && parts[2] != "" && (forall i :: 0 <= i < |parts[2]| ==> '0' <= parts[2][i] <= '9') && parts[4] != ""
    ensures var resume, parts := NormalizeExecutionResume(stageId), SplitOn(stageId, '/');
            resume.Some? ==>
              resume.value.waveNumber == Some(DigitsValue(parts[2])) && resume.value.storyId == Some(parts[4]) && resume.value.rerunTestWriter
  {
    hide SplitOn, DigitsValue;
  }

  // ---------- where the workflow starts again ----------

  datatype ProjectResumePlan = ProjectResumePlan(
    startStage: StageId,
    execution: Option<ExecutionResume>,
    projectStartStages: Option<map<string, StageId>>)

  datatype ResumeInput = ResumeInput(scope: Scope, currentStage: Option<string>, projectStartStages: Option<map<string,
                                     StageId>>)

  /** `resumeCurrentStage` for a run scope: a run that stopped in planning, or nowhere,
      goes on with execution once the plan is on disk. */
  function RunCurrentStage(currentStage: Option<string>, hasPlan: bool): Option<string> {
    var trimmed := if currentStage.Some? then Trim(currentStage.value) else "";
    if hasPlan && (trimmed == "" || TopOf(trimmed) == Some(ProjectTop(Planning))) then Some(StageText(Execution))
    else if trimmed == "" then None else Some(trimmed)
  }

  function ResumeCurrentStage(row: Row, scope: Scope, hasPlan: bool): Option<string> {
    match scope
    case StageScope(stageId) => Some(stageId)
    case StoryScope(waveNumber, storyId) =>
      Some(StageText(Execution) + "/" + WordText(Waves) + "/" + SignedDecimal(waveNumber) + "/" + WordText(Stories) + "/" + storyId)
    case RunScope => RunCurrentStage(row.currentStage, hasPlan)
  }

  function BuildWorkflowResumeInput(row: Row, record: RecoveryRecord, hasPlan: bool): ResumeInput {
    ResumeInput(record.scope, ResumeCurrentStage(row, record.scope, hasPlan), None)
  }

  /** The stage id a resume input stands for; a story scope stands for `story`. */
  function StageIdOf(input: ResumeInput, story: string): string {
    match input.scope
    case StageScope(stageId) => stageId
    case StoryScope(_, _) => story
    case RunScope => if input.currentStage.Some? then input.currentStage.value else ""
  }

  function NormalizeProjectResume(input: ResumeInput): Option<ProjectResumePlan> {
    var stageId := StageIdOf(input, StageText(Execution));
    match TopOf(stageId)
    case Some(BrainstormTop) => None
    case Some(ProjectTop(stage)) =>
      if stage == Execution then
        var execution :=
          if input.scope.StoryScope? then Some(ExecutionResume(Some(input.scope.waveNumber), Some(input.scope.storyId), false))
          else NormalizeExecutionResume(stageId);
        Some(ProjectResumePlan(Execution, execution, input.projectStartStages))
      else Some(ProjectResumePlan(stage, None, input.projectStartStages))
    case _ =>
      if input.projectStartStages.Some? then Some(ProjectResumePlan(Requirements, None, input.projectStartStages)) else None
  }

  datatype ItemStart = FromBrainstorm | FromVisualCompanion | FromFrontendDesign | FromProjects | FromMergeGate

  function NormalizeItemResume(input: ResumeInput): ItemStart {
    if input.scope.StoryScope? then FromProjects
    else
      match TopOf(StageIdOf(input, ""))
      case Some(BrainstormTop) => FromBrainstorm
      case Some(VisualTop) => FromVisualCompanion
      case Some(FrontendTop) => FromFrontendDesign
      case Some(MergeGateTop) => FromMergeGate
      case _ => FromProjects
  }

  /** The plan for one project: a start stage of its own wins. */
  function ForProject(plan: ProjectResumePlan, projectId: string): Resume {
    Resume(
      if plan.projectStartStages.Some? && projectId in plan.projectStartStages.value then plan.projectStartStages.value[projectId]
      else plan.startStage,
      if plan.execution.Some? then plan.execution.value.waveNumber else None)
  }

  /** The current stage a stage or story scope stands for. */
  lemma {:induction false} CurrentStageIs(row: Row, record: RecoveryRecord, hasPlan: bool)
    ensures var stage := BuildWorkflowResumeInput(row, record, hasPlan).currentStage;
            match record.scope
            case StageScope(stageId) => stage == Some(stageId)
            case StoryScope(waveNumber, storyId) =>
              stage == Some("execution/waves/" + SignedDecimal(waveNumber) + "/stories/" + storyId)
            case RunScope => stage.Some? ==> stage.value != ""
  {
    assert StageText(Execution) + "/" + WordText(Waves) + "/" == "execution/waves/" && StageText(Execution) != "";
    assert "/" + WordText(Stories) + "/" == "/stories/";
    hide SignedDecimal, StageText, WordText, Trim, TopOf;
    if record.scope.StoryScope? {
      var start := "execution/waves/" + SignedDecimal(record.scope.waveNumber);
      assert start + "/" + WordText(Stories) + "/" == start + "/stories/";
    }
  }

  lemma {:induction false} TopOfStage(s: StageId)
    ensures TopOf(StageText(s)) == Some(ProjectTop(s))
  {
    hide StageText;
    assert TopText(ProjectTop(s)) == StageText(s);
    TopOfIs(StageText(s), ProjectTop(s));
  }

  /** The workflow starts where the stage id says: the project pipeline at the stage the id
      lies under, the item's own stages likewise, and otherwise with the projects. */
  ghost predicate StageStarts(plan: Option<ProjectResumePlan>, item: ItemStart, stageId: string) {
    && (forall s :: plan.Some? && plan.value.startStage == s <==> Under(stageId, ProjectTop(s)))
    && (item == FromBrainstorm <==> Under(stageId, BrainstormTop))
    && (item == FromVisualCompanion <==> Under(stageId, VisualTop))
    && (item == FromFrontendDesign <==> Under(stageId, FrontendTop))
    && (item == FromMergeGate <==> Under(stageId, MergeGateTop))
  }

  /** What the resume of a scope should do: a stage scope starts at that stage, of the
      project or of the item, a story scope at its wave and story, and a run scope at the
      current stage it was given. */
  ghost predicate StartsAt(input: ResumeInput) {
    var plan, item := NormalizeProjectResume(input), NormalizeItemResume(input);
    match input.scope
    case StageScope(stageId) => StageStarts(plan, item, stageId)
    case StoryScope(waveNumber, storyId) =>
      && plan == Some(ProjectResumePlan(Execution, Some(ExecutionResume(Some(waveNumber), Some(storyId), false)), None))
      && item == FromProjects
    case RunScope => StageStarts(plan, item, if input.currentStage.Some? then input.currentStage.value else "")
  }

  lemma {:induction false} ProjectStageStarts(input: ResumeInput, s: StageId)
    requires !input.scope.StoryScope? && input.projectStartStages.None?
    ensures var plan := NormalizeProjectResume(input);
            plan.Some? && plan.value.startStage == s <==> Under(StageIdOf(input, ""), ProjectTop(s))
  {
    hide NormalizeExecutionResume, TopOf, Under, StageText;
    var stageId := StageIdOf(input, "");
    assert StageIdOf(input, StageText(Execution)) == stageId;
    hide StageIdOf;
    TopOfIs(stageId, ProjectTop(s));
  }

  lemma {:induction false} ItemStageStarts(input: ResumeInput)
    requires !input.scope.StoryScope?
    ensures var item, stageId := NormalizeItemResume(input), StageIdOf(input, "");
            && (item == FromBrainstorm <==> Under(stageId, BrainstormTop))
            && (item == FromVisualCompanion <==> Under(stageId, VisualTop))
            && (item == FromFrontendDesign <==> Under(stageId, FrontendTop))
            && (item == FromMergeGate <==> Under(stageId, MergeGateTop))
  {
    hide TopOf, Under, StageIdOf;
    var stageId := StageIdOf(input, "");
    TopOfIs(stageId, BrainstormTop);
    TopOfIs(stageId, VisualTop);
    TopOfIs(stageId, FrontendTop);
    TopOfIs(stageId, MergeGateTop);
  }

  lemma {:induction false} StageInputStarts(input: ResumeInput)
    requires !input.scope.StoryScope? && input.projectStartStages.None?
    ensures StageStarts(NormalizeProjectResume(input), NormalizeItemResume(input), StageIdOf(input, ""))
  {
    hide NormalizeProjectResume, NormalizeItemResume, StageIdOf, Under;
    ItemStageStarts(input);
    forall s: StageId
      ensures var plan := NormalizeProjectResume(input); plan.Some? && plan.value.startStage == s <==> Under(StageIdOf(input, ""), ProjectTop(s))
    {
      ProjectStageStarts(input, s);
    }
  }

  lemma {:induction false} InputStartsAt(row: Row, record: RecoveryRecord, hasPlan: bool)
    ensures StartsAt(BuildWorkflowResumeInput(row, record, hasPlan))
  {
    var input := BuildWorkflowResumeInput(row, record, hasPlan);
    hide StageStarts, ResumeCurrentStage;
    if record.scope.StoryScope? {
      TopOfStage(Execution);
      hide TopOf, StageText, NormalizeExecutionResume;
    } else {
      StageInputStarts(input);
      hide NormalizeProjectResume, NormalizeItemResume;
    }
  }

  /** The whole way round: block with a scope, write the record and the columns, read them
      back, and the workflow starts at that stage, or at that wave and story. */
  lemma {:induction false} RecoveryRestartsInPlace(toNumber: ToNumber, sanitize: string -> string, files: Files,
                                                   row: Row, scope: Scope, summary: string, now: int, hasPlan: bool)
    requires ReadsNumerals(toNumber) && RecordsInPlace(sanitize, files) && LeadsBack(scope)
    ensures var after, projected := Written(sanitize, files, scope, summary, now), Projected(row, scope);
            var ready := LoadResumeReadiness(toNumber, sanitize, after, Situation(Some(projected), false, false, true));
            && ready.Ready? && ready.record.scope == scope
            && StartsAt(BuildWorkflowResumeInput(projected, ready.record, hasPlan))
  {
    RecordIsFoundAgain(toNumber, sanitize, files, row, scope, summary, now);
    var after, projected := Written(sanitize, files, scope, summary, now), Projected(row, scope);
    hide LoadRecord, BuildWorkflowResumeInput, StartsAt, Written, Projected;
    InputStartsAt(projected, LoadRecord(toNumber, sanitize, after, projected), hasPlan);
  }

  /** What reaches the pipeline: a story scope resumes execution at its wave number, and no
      plan without per-project start stages names a wave for another stage. */
  lemma {:induction false} ScopeReachesThePipeline(row: Row, record: RecoveryRecord, hasPlan: bool, projectId: string)
    ensures var plan := NormalizeProjectResume(BuildWorkflowResumeInput(row, record, hasPlan));
            && (record.scope.StoryScope? ==>
                  plan.Some? && ForProject(plan.value, projectId) == Resume(Execution, Some(record.scope.waveNumber)))
            && (plan.Some? && ForProject(plan.value, projectId).waveNumber.Some? ==> ForProject(plan.value, projectId).start == Execution)
  {
    InputStartsAt(row, record, hasPlan);
    hide TopOf, NormalizeExecutionResume, StageText, TopText, WordText;
  }

  /** A test-writer stage restarts its own wave and story, test writer included. */
  lemma {:induction false} TestWriterScopeRestarts(row: Row, waveNumber: nat, storyId: string, summary: string,
                                                   now: int, hasPlan: bool)
    requires storyId != "" && Without(storyId, '/')
    ensures var record := RecoveryRecord(StageScope(TestWriterStageId(waveNumber, storyId)), summary, now, now);
            NormalizeProjectResume(BuildWorkflowResumeInput(row, record, hasPlan)) ==
            Some(ProjectResumePlan(Execution, Some(ExecutionResume(Some(waveNumber), Some(storyId), true)), None))
  {
    hide NormalizeExecutionResume, TopOf, TestWriterStageId, Under, SplitOn;
    TestWriterRestarts(waveNumber, storyId);
    TestWriterIsUnderExecution(waveNumber, storyId);
    TopOfIs(TestWriterStageId(waveNumber, storyId), ProjectTop(Execution));
  }

  lemma {:induction false} TestWriterIsUnderExecution(waveNumber: nat, storyId: string)
    ensures Under(TestWriterStageId(waveNumber, storyId), ProjectTop(Execution))
  {
    hide Decimal, WordText;
    var stageId := TestWriterStageId(waveNumber, storyId);
    assert TopText(ProjectTop(Execution)) + "/" <= stageId;
  }

  /** A run-scoped resume with a plan on disk never goes back to planning, and starts a run
      that stopped there, or nowhere, with execution. */
  lemma {:induction false} RunScopeKeepsThePlan(row: Row, record: RecoveryRecord)
    requires record.scope == RunScope
    ensures var plan := NormalizeProjectResume(BuildWorkflowResumeInput(row, record, true));
            && (plan.Some? ==> plan.value.startStage != Planning)
            && (row.currentStage.None? ==> plan == Some(ProjectResumePlan(Execution, None, None)))
  {
    TopOfStage(Execution);
    ExecutionIsNoStory();
    hide TopOf, StageText, NormalizeExecutionResume, Trim;
  }

  lemma {:induction false} ExecutionIsNoStory()
    ensures NormalizeExecutionResume(StageText(Execution)).None?
  {
    StageTextIsWhole(Execution);
    hide StageText, TopText;
    SplitNone(StageText(Execution), '/');
  }

  /** The stage a run-scoped resume goes on with, but for the plan on disk: the one the run was
      at, spaces around it aside, and none if it was at none. */
  lemma {:induction false} RunScopeGoesOn(row: Row, record: RecoveryRecord, hasPlan: bool)
    requires record.scope == RunScope
    ensures var input := BuildWorkflowResumeInput(row, record, hasPlan);
            var plan, item := NormalizeProjectResume(input), NormalizeItemResume(input);
            var text := if row.currentStage.Some? then Trim(row.currentStage.value) else "";
            if hasPlan && (text == "" || Under(text, ProjectTop(Planning))) then
              plan == Some(ProjectResumePlan(Execution, None, None))
            else if text == "" then plan == None && item == FromProjects
            else StageStarts(plan, item, text)
  {
    var text := if row.currentStage.Some? then Trim(row.currentStage.value) else "";
    hide Trim;
    InputStartsAt(row, record, hasPlan);
    TopOfIs(text, ProjectTop(Planning));
    TopOfStage(Execution);
    ExecutionIsNoStory();
    NoStageIsNamed();
    hide TopOf, StageText, NormalizeExecutionResume, Under, StageStarts;
  }

  lemma {:induction false} NoStageIsNamed()
    ensures TopOf("").None?
  {
    SplitNone("", '/');
    forall top ensures TopOf("") != Some(top) {
      TextStarts(top);
      TopOfIs("", top);
    }
  }

  /** With start stages per project, a project that has one starts there; the others start
      where the stage id says, or with the requirements if it names no project stage; and
      there is nothing for the projects to resume exactly when the id lies under brainstorm. */
  lemma {:induction false} ProjectsStartOnTheirOwn(input: ResumeInput, projectId: string)
    requires input.projectStartStages.Some? && !input.scope.StoryScope?
    ensures var plan, stageId, starts := NormalizeProjectResume(input), StageIdOf(input, ""), input.projectStartStages.value;
            && (plan.None? <==> Under(stageId, BrainstormTop))
            && (plan.Some? && projectId in starts ==> ForProject(plan.value, projectId).start == starts[projectId])
            && (plan.Some? && projectId !in starts ==>
                  var start := ForProject(plan.value, projectId).start;
                  Under(stageId, ProjectTop(start))
                  || (start == Requirements && forall s :: !Under(stageId, ProjectTop(s))))
  {
    hide TopOf, Under, StageIdOf, NormalizeProjectResume;
    var stageId := StageIdOf(input, "");
    PlanByTop(input);
    TopOfIs(stageId, BrainstormTop);
    forall s ensures TopOf(stageId) == Some(ProjectTop(s)) <==> Under(stageId, ProjectTop(s)) {
      TopOfIs(stageId, ProjectTop(s));
    }
  }

  lemma {:induction false} PlanByTop(input: ResumeInput)
    requires input.projectStartStages.Some? && !input.scope.StoryScope?
    ensures var plan, top := NormalizeProjectResume(input), TopOf(StageIdOf(input, ""));
            && (plan.None? <==> top == Some(BrainstormTop))
            && (plan.Some? ==> plan.value.projectStartStages == input.projectStartStages
                               && plan.value.startStage == if top.Some? && top.value.ProjectTop? then top.value.stage else Requirements)
  {
    hide TopOf, NormalizeExecutionResume, StageText;
    assert StageIdOf(input, StageText(Execution)) == StageIdOf(input, "");
    hide StageIdOf;
  }

  /** The stage id of a story's test writer. */
  lemma {:induction false} TestWriterIsNamed(waveNumber: nat, storyId: string)
    ensures TestWriterStageId(waveNumber, storyId)
         == "execution/waves/" + Decimal(waveNumber) + "/stories/" + storyId + "/test-writer"
  {
    assert StageText(Execution) + "/" + WordText(Waves) + "/" == "execution/waves/";
    assert "/" + WordText(Stories) + "/" == "/stories/" && "/" + WordText(TestWriter) == "/test-writer";
    hide Decimal, StageText, WordText;
  }

  /** A resume that starts a project at some stage leaves the item's own stages alone. */
  lemma {:induction false} ProjectResumeSkipsItemStages(input: ResumeInput)
    requires NormalizeProjectResume(input).Some? && input.projectStartStages.None?
    ensures NormalizeItemResume(input) == FromProjects
  {
    hide TopOf, StageText, NormalizeExecutionResume;
  }
}
