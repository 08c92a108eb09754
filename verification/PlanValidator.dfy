/** Model of the planner post-validator (`planValidator.ts`): waves whose stories may touch
    the same file lose their parallel flag, in place. */
module PlanValidator {
  import opened Outcomes
  import opened Ordering

  datatype StoryId = StoryId(key: string)
  datatype FileName = FileName(path: string)

  datatype Story = Story(id: StoryId, sharedFiles: Option<seq<FileName>>)

  datatype WaveKind = Setup | Feature

  /** A wave as a value; `WaveObject` below is the object the validator writes to. */
  datatype Wave = Wave(id: string, number: int, kind: WaveKind, stories: seq<Story>, parallel: bool)

  datatype Cause = SharedFileOverlap | MissingSharedFiles

  datatype Decision = Decision(waveNumber: int, waveId: string, stories: seq<StoryId>, overlappingFiles: seq<FileName>,
                               cause: Cause)

  datatype Found = Found(stories: seq<StoryId>, overlap: seq<FileName>)

  // ---------- what makes a wave safe ----------

  predicate DeclaresNothing(story: Story) { story.sharedFiles.None? || story.sharedFiles.value == [] }

  predicate Declares(story: Story, file: FileName) { story.sharedFiles.Some? && file in story.sharedFiles.value }

  predicate AnyMissing(stories: seq<Story>) {
    exists i :: 0 <= i < |stories| && DeclaresNothing(stories[i])
  }

  ghost predicate DistinctIds(stories: seq<Story>) {
    forall i, j :: 0 <= i < j < |stories| ==> stories[i].id != stories[j].id
  }

  ghost predicate PairwiseDisjoint(stories: seq<Story>) {
    forall i, j, f :: 0 <= i < j < |stories| && Declares(stories[i], f) ==> !Declares(stories[j], f)
  }

  /** The promise the parallel runtime relies on. */
  ghost predicate SafeToParallelize(stories: seq<Story>) {
    |stories| < 2 || (!AnyMissing(stories) && PairwiseDisjoint(stories))
  }

  // ---------- the map of declared files ----------

  function IdsOf(stories: seq<Story>): seq<StoryId> {
    seq(|stories|, i requires 0 <= i < |stories| => stories[i].id)
  }

  function FileSet(story: Story): set<FileName> {
    if story.sharedFiles.None? then {} else set f | f in story.sharedFiles.value
  }

  /** `collectStoryFiles`: a later story with the same id replaces the earlier one. */
  function FilesByStory(stories: seq<Story>): map<StoryId, set<FileName>> {
    if stories == [] then map[]
    else
      var last := stories[|stories| - 1];
      FilesByStory(stories[..|stories| - 1])[last.id := FileSet(last)]
  }

  lemma {:induction false} FilesByStoryKeys(stories: seq<Story>)
    ensures forall i :: 0 <= i < |stories| ==> stories[i].id in FilesByStory(stories)
    ensures forall id :: id in FilesByStory(stories) ==>
                           exists i :: 0 <= i < |stories| && stories[i].id == id && FilesByStory(stories)[id] == FileSet(stories[i])
    ensures DistinctIds(stories)
            ==> forall i :: 0 <= i < |stories| ==> FilesByStory(stories)[stories[i].id] == FileSet(stories[i])
  {
    if stories != [] {
      var front, last := stories[..|stories| - 1], stories[|stories| - 1];
      FilesByStoryKeys(front);
      assert DistinctIds(stories) ==> DistinctIds(front);
      forall id | id in FilesByStory(stories)
        ensures exists i :: 0 <= i < |stories| && stories[i].id == id && FilesByStory(stories)[id] == FileSet(stories[i])
      {
        if id == last.id {
          assert stories[|stories| - 1].id == id;
        } else {
          assert id in FilesByStory(front);
          var i :| 0 <= i < |front| && front[i].id == id && FilesByStory(front)[id] == FileSet(front[i]);
          assert stories[i] == front[i];
        }
      }
    }
  }

  /** Of several stories with the same id the last one's files count. */
  lemma {:induction false} LastStoryWins(stories: seq<Story>, i: nat)
    requires i < |stories| && forall j :: i < j < |stories| ==> stories[j].id != stories[i].id
    ensures var files := FilesByStory(stories);
            stories[i].id in files && forall f :: f in files[stories[i].id] <==> Declares(stories[i], f)
  {
    var front := stories[..|stories| - 1];
    if i < |stories| - 1 {
      assert front[i] == stories[i] && stories[|stories| - 1].id != stories[i].id;
      LastStoryWins(front, i);
    }
  }

  /** Two stories of the wave, in order, whose ids the map gives a common file. */
  ghost predicate SharedByPair(stories: seq<Story>, file: FileName) {
    var files := FilesByStory(stories);
    exists i, j :: 0 <= i < j < |stories| && stories[i].id in files && stories[j].id in files
                   && file in files[stories[i].id] && file in files[stories[j].id]
  }

  /** With unique ids these are precisely the files that at least two stories declare. */
  lemma {:induction false} SharedMeansDeclaredTwice(stories: seq<Story>, file: FileName)
    requires DistinctIds(stories)
    ensures SharedByPair(stories, file)
       <==> exists i, j :: 0 <= i < j < |stories| && Declares(stories[i], file) && Declares(stories[j], file)
  {
    FilesByStoryKeys(stories);
  }

  /** No file shared by a pair means the ids are distinct and the stories disjoint. */
  lemma {:induction false} NoneSharedMeansSafe(stories: seq<Story>)
    requires !AnyMissing(stories)
    ensures (forall f :: !SharedByPair(stories, f)) <==> DistinctIds(stories) && PairwiseDisjoint(stories)
  {
    var files := FilesByStory(stories);
    FilesByStoryKeys(stories);
    if !DistinctIds(stories) {
      var i, j :| 0 <= i < j < |stories| && stories[i].id == stories[j].id;
      var k :| 0 <= k < |stories| && stories[k].id == stories[i].id && files[stories[i].id] == FileSet(stories[k]);
      assert !DeclaresNothing(stories[k]);
      var f := stories[k].sharedFiles.value[0];
      assert f in files[stories[i].id] && f in files[stories[j].id];
      assert SharedByPair(stories, f);
    } else {
      if !PairwiseDisjoint(stories) {
        var i, j, f :| 0 <= i < j < |stories| && Declares(stories[i], f) && Declares(stories[j], f);
        SharedMeansDeclaredTwice(stories, f);
        assert SharedByPair(stories, f);
      }
      forall f | SharedByPair(stories, f) ensures !PairwiseDisjoint(stories) {
        SharedMeansDeclaredTwice(stories, f);
      }
    }
  }

  // ---------- one wave ----------

  /** A report is right: none exactly for fewer than two stories or declared, disjoint,
      distinctly named ones; else all story ids, and the shared files once each, or no
      file when some story declares none. */
  ghost predicate ReportIsRight(stories: seq<Story>, found: Option<Found>) {
    && (found.None? <==> |stories| < 2 || (!AnyMissing(stories) && DistinctIds(stories) && PairwiseDisjoint(stories)))
    && (found.Some? ==>
          && |found.value.stories| == |stories| && (forall i :: 0 <= i < |stories| ==> found.value.stories[i] == stories[i].id)
          && NoDuplicates(found.value.overlap)
          && (found.value.overlap == [] <==> AnyMissing(stories))
          && (!AnyMissing(stories) ==> forall f :: f in found.value.overlap <==> SharedByPair(stories, f)))
  }

  /** The overlap set only grows, in insertion order. */
  method AddPairOverlap(left: seq<FileName>, right: set<FileName>, overlap: seq<FileName>) returns (more: seq<FileName>)
    requires NoDuplicates(overlap)
    ensures NoDuplicates(more)
    ensures forall f :: f in more <==> f in overlap || (f in left && f in right)
  {
    more := overlap;
    for k := 0 to |left|
      invariant NoDuplicates(more)
      invariant forall f :: f in more <==> f in overlap || (f in left[..k] && f in right)
    {
      assert left[..k + 1] == left[..k] + [left[k]];
      if left[k] in right && left[k] !in more {
        more := more + [left[k]];
      }
    }
    assert left[..|left|] == left;
  }

  method CollectStoryFiles(stories: seq<Story>)
    returns (files: map<StoryId, set<FileName>>, order: map<StoryId, seq<FileName>>, anyMissing: bool)
    ensures files == FilesByStory(stories) && order.Keys == files.Keys
    ensures forall id :: id in files ==> files[id] == set f | f in order[id]
    ensures anyMissing == AnyMissing(stories)
  {
    files, order, anyMissing := map[], map[], false;
    for i := 0 to |stories|
      invariant files == FilesByStory(stories[..i]) && order.Keys == files.Keys
      invariant forall id :: id in files ==> files[id] == set f | f in order[id]
      invariant anyMissing == exists k :: 0 <= k < i && DeclaresNothing(stories[k])
    {
      assert stories[..i + 1][..i] == stories[..i];
      var declared := if stories[i].sharedFiles.None? then [] else stories[i].sharedFiles.value;
      if declared == [] { anyMissing := true; }
      assert FileSet(stories[i]) == set f | f in declared;
      files := files[stories[i].id := FileSet(stories[i])];
      order := order[stories[i].id := declared];
    }
    assert stories[..|stories|] == stories;
  }

  /** Pair (i, j) comes before pair (a, b) in the order of the two loops. */
  predicate Earlier(i: nat, j: nat, a: nat, b: nat) { i < a || (i == a && j < b) }

  ghost predicate SharedBefore(stories: seq<Story>, files: map<StoryId, set<FileName>>, a: nat, b: nat, f: FileName) {
    exists i, j :: 0 <= i < j < |stories| && Earlier(i, j, a, b) && stories[i].id in files && stories[j].id in files
                   && f in files[stories[i].id] && f in files[stories[j].id]
  }

  /** The two nested loops over pairs of stories. */
  method CollectOverlap(stories: seq<Story>, files: map<StoryId, set<FileName>>, order: map<StoryId, seq<FileName>>)
    returns (overlap: seq<FileName>)
    requires files == FilesByStory(stories) && order.Keys == files.Keys
    requires forall id :: id in files ==> files[id] == set f | f in order[id]
    ensures NoDuplicates(overlap)
    ensures forall f :: f in overlap <==> SharedByPair(stories, f)
  {
    overlap := [];
    FilesByStoryKeys(stories);
    NothingBefore(stories, files);
    assert NoDuplicates(overlap);
    hide SharedBefore, SharedByPair, NoDuplicates, FilesByStory;
    for i := 0 to |stories|
      invariant NoDuplicates(overlap)
      invariant forall f :: f in overlap <==> SharedBefore(stories, files, i, 0, f)
    {
      overlap := CollectRow(stories, files, order, i, overlap);
    }
    AllPairs(stories);
  }

  /** The inner loop: story i against every later story. */
  method CollectRow(stories: seq<Story>, files: map<StoryId, set<FileName>>, order: map<StoryId, seq<FileName>>,
                    i: nat, overlap: seq<FileName>)
    returns (more: seq<FileName>)
    requires i < |stories| && order.Keys == files.Keys && forall k :: 0 <= k < |stories| ==> stories[k].id in files
    requires forall id :: id in files ==> files[id] == set f | f in order[id]
    requires NoDuplicates(overlap) && forall f :: f in overlap <==> SharedBefore(stories, files, i, 0, f)
    ensures NoDuplicates(more)
    ensures forall f :: f in more <==> SharedBefore(stories, files, i + 1, 0, f)
  {
    hide SharedBefore, NoDuplicates;
    more := overlap;
    RowStarts(stories, files, i);
    for j := i + 1 to |stories|
      invariant NoDuplicates(more)
      invariant forall f :: f in more <==> SharedBefore(stories, files, i, j, f)
    {
      more := AddPairOverlap(order[stories[i].id], files[stories[j].id], more);
      OnePairMore(stories, files, i, j);
      assert forall f :: f in order[stories[i].id] <==> f in files[stories[i].id];
    }
    RowEnds(stories, files, i);
  }

  lemma {:induction false} NothingBefore(stories: seq<Story>, files: map<StoryId, set<FileName>>)
    ensures forall f :: !SharedBefore(stories, files, 0, 0, f)
  {
  }

  lemma {:induction false} RowStarts(stories: seq<Story>, files: map<StoryId, set<FileName>>, i: nat)
    ensures forall f :: SharedBefore(stories, files, i, i + 1, f) <==> SharedBefore(stories, files, i, 0, f)
  {
  }

  lemma {:induction false} OnePairMore(stories: seq<Story>, files: map<StoryId, set<FileName>>, i: nat, j: nat)
    requires i < j < |stories| && stories[i].id in files && stories[j].id in files
    ensures forall f :: SharedBefore(stories, files, i, j + 1, f)
                   <==> SharedBefore(stories, files, i, j, f) || (f in files[stories[i].id] && f in files[stories[j].id])
  {
  }

  lemma {:induction false} RowEnds(stories: seq<Story>, files: map<StoryId, set<FileName>>, i: nat)
    requires i < |stories|
    ensures forall f :: SharedBefore(stories, files, i + 1, 0, f) <==> SharedBefore(stories, files, i, |stories|, f)
  {
  }

  lemma {:induction false} AllPairs(stories: seq<Story>)
    ensures forall f :: SharedBefore(stories, FilesByStory(stories), |stories|, 0, f) <==> SharedByPair(stories, f)
  {
  }

  /** `findOverlappingFiles` for a feature wave; `collate` orders files as `localeCompare` does. */
  method FindOverlappingFiles(stories: seq<Story>, collate: FileName -> int) returns (found: Option<Found>)
    ensures ReportIsRight(stories, found)
    ensures found.Some? ==> SortedBy(found.value.overlap, collate)
  {
    if |stories| < 2 { return None; }
    var files, order, anyMissing := CollectStoryFiles(stories);
    if anyMissing { return Some(Found(IdsOf(stories), [])); }
    var overlap := CollectOverlap(stories, files, order);
    NoneSharedMeansSafe(stories);
    if |overlap| == 0 { return None; }
    assert overlap[0] in overlap;
    SortByCorrect(overlap, collate);
    PermutationKeepsNoDuplicates(overlap, SortBy(overlap, collate));
    found := Some(Found(IdsOf(stories), SortBy(overlap, collate)));
  }

  // ---------- the whole plan ----------

  /** Whether the pass takes the parallel flag from the wave. */
  ghost predicate LosesFlag(w: Wave) {
    w.parallel && (w.kind == Setup || !(|w.stories| < 2 || (!AnyMissing(w.stories) && DistinctIds(w.stories) && PairwiseDisjoint(w.stories))))
  }

  ghost function Enforced(w: Wave): Wave { if LosesFlag(w) then w.(parallel := false) else w }

  ghost function EnforcedAll(ws: seq<Wave>): seq<Wave> { seq(|ws|, i requires 0 <= i < |ws| => Enforced(ws[i])) }

  /** The feature waves that are downgraded, in plan order; setup waves go silently. */
  ghost function Downgraded(ws: seq<Wave>): seq<Wave> {
    if ws == [] then []
    else
      var last := ws[|ws| - 1];
      Downgraded(ws[..|ws| - 1]) + (if last.kind == Feature && LosesFlag(last) then [last] else [])
  }

  /** A decision says which wave was downgraded and why, with the right files. */
  ghost predicate Explains(d: Decision, w: Wave, collate: FileName -> int) {
    && d.waveNumber == w.number && d.waveId == w.id
    && ReportIsRight(w.stories, Some(Found(d.stories, d.overlappingFiles)))
    && SortedBy(d.overlappingFiles, collate)
    && (d.cause == MissingSharedFiles <==> AnyMissing(w.stories))
  }

  ghost predicate ExplainAll(decisions: seq<Decision>, ws: seq<Wave>, collate: FileName -> int) {
    |decisions| == |ws| && forall k :: 0 <= k < |ws| ==> Explains(decisions[k], ws[k], collate)
  }

  /** Soundness: after the pass no setup wave is parallel, and a wave that still is has
      stories that all declare files, no two the same one. Nothing but the flag changes, and
      none is set. */
  lemma {:induction false} EnforcedWavesAreSafe(w: Wave)
    ensures Enforced(w).parallel ==> w.parallel && w.kind == Feature && SafeToParallelize(w.stories)
    ensures Enforced(w) == Wave(w.id, w.number, w.kind, w.stories, Enforced(w).parallel)
  {
  }

  /** The waves a decision is made for, read off the plan from the front. */
  lemma {:induction false} DowngradedInOrder(a: seq<Wave>, w: Wave, b: seq<Wave>)
    ensures Downgraded(a + [w] + b)
         == Downgraded(a) + (if w.kind == Feature && w.parallel && !Enforced(w).parallel then [w] else []) + Downgraded(b)
  {
    if b == [] {
      assert (a + [w] + b)[..|a|] == a;
    } else {
      var all := a + [w] + b;
      assert all[..|all| - 1] == a + [w] + b[..|b| - 1];
      DowngradedInOrder(a, w, b[..|b| - 1]);
    }
  }

  /** Minimality: a feature wave that was safe keeps its flag, unless two of its stories go
      by the same id, which makes the validator see every file of theirs as shared. */
  lemma {:induction false} OnlyUnsafeOrAmbiguousWavesLose(w: Wave)
    requires w.kind == Feature && w.parallel && SafeToParallelize(w.stories)
    ensures Enforced(w) == w <==> |w.stories| < 2 || DistinctIds(w.stories)
  {
  }

  /** With distinct story ids the reported files are exactly those declared twice. */
  lemma {:induction false} ReportedFilesAreDeclaredTwice(d: Decision, w: Wave, collate: FileName -> int, file: FileName)
    requires Explains(d, w, collate) && DistinctIds(w.stories) && !AnyMissing(w.stories)
    ensures file in d.overlappingFiles
       <==> exists i, j :: 0 <= i < j < |w.stories| && Declares(w.stories[i], file) && Declares(w.stories[j], file)
  {
    SharedMeansDeclaredTwice(w.stories, file);
  }

  /** A second pass decides nothing and changes nothing. */
  lemma {:induction false} SecondPassIsIdle(ws: seq<Wave>)
    ensures Downgraded(EnforcedAll(ws)) == [] && EnforcedAll(EnforcedAll(ws)) == EnforcedAll(ws)
  {
    if ws != [] {
      SecondPassIsIdle(ws[..|ws| - 1]);
      assert EnforcedAll(ws)[..|ws| - 1] == EnforcedAll(ws[..|ws| - 1]);
    }
  }

  // ---------- in place ----------

  class WaveObject {
    const id: string
    const number: int
    const kind: WaveKind
    const stories: seq<Story>
    var internallyParallelizable: bool

    constructor (w: Wave)
      ensures Value() == w
    {
      id, number, kind, stories, internallyParallelizable := w.id, w.number, w.kind, w.stories, w.parallel;
    }

    function Value(): Wave
      reads this
    {
      Wave(id, number, kind, stories, internallyParallelizable)
    }
  }

  ghost function Values(waves: seq<WaveObject>): seq<Wave>
    reads waves
  {
    seq(|waves|, i requires 0 <= i < |waves| reads waves => waves[i].Value())
  }

  /** One wave of the walk: downgrade it if need be and say why. */
  method EnforceWave(wave: WaveObject, collate: FileName -> int) returns (decision: Option<Decision>)
    modifies wave
    ensures wave.Value() == Enforced(old(wave.Value()))
    ensures decision.Some? <==> wave.kind == Feature && LosesFlag(old(wave.Value()))
    ensures decision.Some? ==> Explains(decision.value, old(wave.Value()), collate)
  {
    if !wave.internallyParallelizable { return None; }
    if wave.kind == Setup {
      wave.internallyParallelizable := false;
      return None;
    }
    var found := FindOverlappingFiles(wave.stories, collate);
    if found.None? { return None; }
    var cause := if |found.value.overlap| == 0 then MissingSharedFiles else SharedFileOverlap;
    wave.internallyParallelizable := false;
    decision := Some(Decision(wave.number, wave.id, found.value.stories, found.value.overlap, cause));
  }

  /** One wave further: its decision, if any, explains the next downgraded wave. */
  lemma {:induction false} ExplainOneMore(decisions: seq<Decision>, ws: seq<Wave>, i: nat, decision: Option<Decision>,
                                          collate: FileName -> int)
    requires i < |ws| && ExplainAll(decisions, Downgraded(ws[..i]), collate)
    requires decision.Some? <==> ws[i].kind == Feature && LosesFlag(ws[i])
    requires decision.Some? ==> Explains(decision.value, ws[i], collate)
    ensures ExplainAll(if decision.Some? then decisions + [decision.value] else decisions, Downgraded(ws[..i + 1]), collate)
  {
    hide LosesFlag, Explains;
    assert ws[..i + 1][..i] == ws[..i];
  }

  /** `enforceWaveParallelism`: the walk over the plan, writing the flags in place. */
  method EnforceWaveParallelism(waves: seq<WaveObject>, collate: FileName -> int) returns (decisions: seq<Decision>)
    requires NoDuplicates(waves)
    modifies waves
    ensures Values(waves) == EnforcedAll(old(Values(waves)))
    ensures ExplainAll(decisions, Downgraded(old(Values(waves))), collate)
  {
    decisions := [];
    ghost var before := Values(waves);
    NothingToExplain(collate);
    hide LosesFlag, Enforced, Explains, ExplainAll, Downgraded;
    for i := 0 to |waves|
      invariant forall k :: 0 <= k < i ==> waves[k].Value() == Enforced(before[k])
      invariant forall k :: i <= k < |waves| ==> waves[k].Value() == before[k]
      invariant ExplainAll(decisions, Downgraded(before[..i]), collate)
    {
      assert waves[i] in waves;
      var decision := EnforceWave(waves[i], collate);
      ExplainOneMore(decisions, before, i, decision, collate);
      if decision.Some? {
        decisions := decisions + [decision.value];
      }
    }
    assert before[..|waves|] == before;
  }

  lemma {:induction false} NothingToExplain(collate: FileName -> int)
    ensures ExplainAll([], Downgraded([]), collate)
  {
  }
}
