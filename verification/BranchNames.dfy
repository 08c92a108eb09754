/** Model of branch naming (`branchNames.ts`, `itemIdentity.ts`): slugs, and the names built
    from them, which read back uniquely.

    `Lowering` is the host's `toLowerCase`, letter by letter. Nothing is assumed of it
    beyond ASCII, so the results hold for every Unicode case mapping. */
module BranchNames {
  import opened Outcomes
  import opened Text

  type Lowering = char -> string

  predicate IsSlugChar(c: char) { 'a' <= c <= 'z' || '0' <= c <= '9' }

  ghost predicate LowersAscii(lower: Lowering) {
    forall c: char :: IsSlugChar(c) || c == '-' ==> lower(c) == [c]
  }

  function LowerCase(lower: Lowering, s: string): string {
    if s == "" then "" else lower(s[0]) + LowerCase(lower, s[1..])
  }

  // ---------- slugs ----------

  function SkipRun(s: string): string {
    if s == "" || IsSlugChar(s[0]) then s else SkipRun(s[1..])
  }

  /** `replaceAll(/[^a-z0-9]+/g, "-")`. */
  function ReplaceRuns(s: string): string
    decreases |s|
  {
    if s == "" then ""
    else if IsSlugChar(s[0]) then [s[0]] + ReplaceRuns(s[1..])
    else
      SkipRunShortens(s[1..]);
      "-" + ReplaceRuns(SkipRun(s[1..]))
  }

  lemma {:induction false} SkipRunShortens(s: string)
    ensures |SkipRun(s)| <= |s|
    ensures SkipRun(s) != "" ==> IsSlugChar(SkipRun(s)[0])
  {
    if s != "" && !IsSlugChar(s[0]) {
      SkipRunShortens(s[1..]);
    }
  }

  /** `replaceAll(/^-+|-+$/g, "")`. */
  function StripDashes(s: string): string {
    if s == "" then ""
    else if s[0] == '-' then StripDashes(s[1..])
    else if s[|s| - 1] == '-' then StripDashes(s[..|s| - 1])
    else s
  }

  /** `replaceAll(/^-|-$/g, "")`: one dash at each end. */
  function StripEdgeDash(s: string): string {
    var t := if s != "" && s[0] == '-' then s[1..] else s;
    if t != "" && t[|t| - 1] == '-' then t[..|t| - 1] else t
  }

  function Slugify(lower: Lowering, value: string, fallback: string): string {
    var slug := StripDashes(ReplaceRuns(LowerCase(lower, value)));
    if slug != "" then slug else fallback
  }

  /** A finished slug: letters and digits, single dashes between them. */
  predicate IsSlug(s: string) {
    && s != "" && IsSlugChar(s[0]) && IsSlugChar(s[|s| - 1])
    && (forall i :: 0 <= i < |s| ==> IsSlugChar(s[i]) || s[i] == '-')
    && (forall i :: 0 <= i < |s| - 1 ==> IsSlugChar(s[i]) || IsSlugChar(s[i + 1]))
  }

  /** What `ReplaceRuns` leaves: as a slug, but a dash may be left at either end. */
  ghost predicate SingleDashes(s: string) {
    && (forall i :: 0 <= i < |s| ==> IsSlugChar(s[i]) || s[i] == '-')
    && (forall i :: 0 <= i < |s| - 1 ==> IsSlugChar(s[i]) || IsSlugChar(s[i + 1]))
  }

  lemma {:induction false} ReplaceRunsSingles(s: string)
    ensures SingleDashes(ReplaceRuns(s))
    ensures s != "" && IsSlugChar(s[0]) ==> ReplaceRuns(s) != "" && ReplaceRuns(s)[0] == s[0]
    decreases |s|
  {
    if s != "" {
      if IsSlugChar(s[0]) {
        ReplaceRunsSingles(s[1..]);
      } else {
        SkipRunShortens(s[1..]);
        ReplaceRunsSingles(SkipRun(s[1..]));
      }
    }
  }

  lemma {:induction false} StripOfSingles(s: string)
    requires SingleDashes(s)
    ensures StripDashes(s) == StripEdgeDash(s)
    ensures StripDashes(s) == "" || IsSlug(StripDashes(s))
  {
    var t := if s != "" && s[0] == '-' then s[1..] else s;
    assert t == "" || IsSlugChar(t[0]);
    assert StripDashes(s) == StripDashes(t);
    if t != "" && t[|t| - 1] == '-' {
      var u := t[..|t| - 1];
      assert u != "" && IsSlugChar(u[|u| - 1]) && u[0] == t[0];
      assert StripDashes(t) == StripDashes(u) == u;
    }
  }

  /** `slugify` always gives a slug, so no "_", no "/" and no edge or doubled dash. */
  lemma {:induction false} SlugifyGivesSlug(lower: Lowering, value: string, fallback: string)
    requires IsSlug(fallback)
    ensures IsSlug(Slugify(lower, value, fallback))
  {
    ReplaceRunsSingles(LowerCase(lower, value));
    StripOfSingles(ReplaceRuns(LowerCase(lower, value)));
  }

  lemma {:induction false} LowerIsItself(lower: Lowering, s: string)
    requires forall i :: 0 <= i < |s| ==> lower(s[i]) == [s[i]]
    ensures LowerCase(lower, s) == s
  {
    if s != "" {
      LowerIsItself(lower, s[1..]);
    }
  }

  lemma {:induction false} LowerKeepsSlugText(lower: Lowering, s: string)
    requires LowersAscii(lower) && forall i :: 0 <= i < |s| ==> IsSlugChar(s[i]) || s[i] == '-'
    ensures LowerCase(lower, s) == s
  {
    LowerIsItself(lower, s);
  }

  lemma {:induction false} ReplaceKeepsSingles(s: string)
    requires SingleDashes(s)
    ensures ReplaceRuns(s) == s
    decreases |s|
  {
    if s != "" {
      var rest := s[1..];
      ReplaceKeepsSingles(rest);
      if !IsSlugChar(s[0]) {
        assert rest == "" || IsSlugChar(rest[0]);
        assert SkipRun(rest) == rest;
      }
    }
  }

  /** A slug is left as it is: `slugify` is idempotent. */
  lemma {:induction false} SlugifyKeepsSlugs(lower: Lowering, s: string, fallback: string)
    requires LowersAscii(lower) && IsSlug(s)
    ensures Slugify(lower, s, fallback) == s
  {
    LowerKeepsSlugText(lower, s);
    ReplaceKeepsSingles(s);
  }

  /** The letters and digits of a text, in order. */
  function Letters(s: string): string {
    if s == "" then "" else (if IsSlugChar(s[0]) then [s[0]] else "") + Letters(s[1..])
  }

  lemma {:induction false} LettersConcat(s: string, t: string)
    ensures Letters(s + t) == Letters(s) + Letters(t)
  {
    if s == "" {
      assert s + t == t;
    } else {
      assert (s + t)[1..] == s[1..] + t;
      LettersConcat(s[1..], t);
    }
  }

  lemma {:induction false} SkippingKeepsLetters(s: string)
    ensures Letters(SkipRun(s)) == Letters(s)
  {
    if s != "" && !IsSlugChar(s[0]) {
      SkippingKeepsLetters(s[1..]);
    }
  }

  lemma {:induction false} ReplacingKeepsLetters(s: string)
    ensures Letters(ReplaceRuns(s)) == Letters(s)
    decreases |s|
  {
    if s != "" {
      if IsSlugChar(s[0]) {
        ReplacingKeepsLetters(s[1..]);
      } else {
        SkipRunShortens(s[1..]);
        SkippingKeepsLetters(s[1..]);
        ReplacingKeepsLetters(SkipRun(s[1..]));
      }
    }
  }

  lemma {:induction false} StrippingKeepsLetters(s: string)
    ensures Letters(StripDashes(s)) == Letters(s)
    decreases |s|
  {
    if s != "" && s[0] == '-' {
      StrippingKeepsLetters(s[1..]);
    } else if s != "" && s[|s| - 1] == '-' {
      var front := s[..|s| - 1];
      StrippingKeepsLetters(front);
      assert s == front + "-";
      LettersConcat(front, "-");
      assert Letters("-") == "";
    }
  }

  /** A slug keeps every letter and digit of the lower-cased text, in order; the fallback is
      taken exactly when there is none. */
  lemma {:induction false} SlugKeepsLetters(lower: Lowering, value: string, fallback: string)
    ensures var low := LowerCase(lower, value);
            if HasSlugChar(low) then Letters(Slugify(lower, value, fallback)) == Letters(low)
            else Slugify(lower, value, fallback) == fallback
  {
    var low := LowerCase(lower, value);
    ReplacingKeepsLetters(low);
    StrippingKeepsLetters(ReplaceRuns(low));
    TitleSlug(lower, value);
  }

  // ---------- item identity ----------

  datatype Item = Item(id: string, title: string)

  function ItemSlug(lower: Lowering, item: Item): string {
    var slug := StripEdgeDash(ReplaceRuns(LowerCase(lower, item.title)));
    if slug != "" then slug else LowerCase(lower, item.id)
  }

  predicate HasSlugChar(s: string) { exists i :: 0 <= i < |s| && IsSlugChar(s[i]) }

  lemma {:induction false} ReplacedIsBare(s: string)
    ensures HasSlugChar(s) <==> HasSlugChar(ReplaceRuns(s))
    decreases |s|
  {
    if s != "" {
      var r := ReplaceRuns(s);
      if IsSlugChar(s[0]) {
        assert HasSlugChar(s) && r[0] == s[0];
      } else {
        SkipRunShortens(s[1..]);
        SkipRunKeeps(s[1..]);
        var rest := SkipRun(s[1..]);
        ReplacedIsBare(rest);
        if HasSlugChar(s) {
          var i :| 0 <= i < |s| && IsSlugChar(s[i]);
          assert IsSlugChar(s[1..][i - 1]);
          var j :| 0 <= j < |ReplaceRuns(rest)| && IsSlugChar(ReplaceRuns(rest)[j]);
          assert IsSlugChar(r[j + 1]);
        }
        if HasSlugChar(r) {
          var j :| 0 <= j < |r| && IsSlugChar(r[j]);
          assert IsSlugChar(ReplaceRuns(rest)[j - 1]);
          var i :| 0 <= i < |s[1..]| && IsSlugChar(s[1..][i]);
          assert IsSlugChar(s[i + 1]);
        }
      }
    }
  }

  lemma {:induction false} SkipRunKeeps(s: string)
    ensures HasSlugChar(s) <==> HasSlugChar(SkipRun(s))
  {
    if s != "" && !IsSlugChar(s[0]) {
      SkipRunKeeps(s[1..]);
      if HasSlugChar(s) {
        var i :| 0 <= i < |s| && IsSlugChar(s[i]);
        assert IsSlugChar(s[1..][i - 1]);
      }
      if HasSlugChar(s[1..]) {
        var i :| 0 <= i < |s[1..]| && IsSlugChar(s[1..][i]);
        assert IsSlugChar(s[i + 1]);
      }
    }
  }

  /** The title gives a slug exactly when its lower-case form holds a letter or digit. */
  lemma {:induction false} TitleSlug(lower: Lowering, title: string)
    ensures var slug := StripDashes(ReplaceRuns(LowerCase(lower, title)));
            && slug == StripEdgeDash(ReplaceRuns(LowerCase(lower, title)))
            && (slug != "" <==> HasSlugChar(LowerCase(lower, title)))
            && (slug != "" ==> IsSlug(slug))
  {
    var low := LowerCase(lower, title);
    var r := ReplaceRuns(low);
    ReplaceRunsSingles(low);
    StripOfSingles(r);
    ReplacedIsBare(low);
    var slug := StripEdgeDash(r);
    if HasSlugChar(r) {
      var i :| 0 <= i < |r| && IsSlugChar(r[i]);
      assert |r| > 2 || (|r| == 2 && (IsSlugChar(r[0]) || IsSlugChar(r[1]))) || |r| == 1;
    }
    if slug != "" {
      assert IsSlugChar(slug[0]);
      assert IsSlugChar(if r[0] == '-' then r[1] else r[0]);
    }
  }

  // ---------- names ----------

  /** A branch by kind and slugs. */
  datatype Branch =
    | ItemBranch(item: string)
    | ProjectBranch(item: string, project: string)
    | WaveBranch(item: string, project: string, wave: nat)
    | StoryBranch(item: string, project: string, wave: nat, story: string)
    | CandidateBranch(run: string, item: string, project: string)

  predicate AllSlugs(b: Branch) {
    match b
    case ItemBranch(item) => IsSlug(item)
    case ProjectBranch(item, project) => IsSlug(item) && IsSlug(project)
    case WaveBranch(item, project, _) => IsSlug(item) && IsSlug(project)
    case StoryBranch(item, project, _, story) => IsSlug(item) && IsSlug(project) && IsSlug(story)
    case CandidateBranch(run, item, project) => IsSlug(run) && IsSlug(item) && IsSlug(project)
  }

  function WaveSegment(n: nat): string { "w" + Decimal(n) }

  datatype Kind = ItemKind | ProjectKind | WaveKind | StoryKind | CandidateKind

  function KindText(kind: Kind): string {
    match kind
    case ItemKind => "item"
    case ProjectKind => "proj"
    case WaveKind => "wave"
    case StoryKind => "story"
    case CandidateKind => "candidate"
  }

  function KindOf(b: Branch): Kind {
    match b
    case ItemBranch(_) => ItemKind
    case ProjectBranch(_, _) => ProjectKind
    case WaveBranch(_, _, _) => WaveKind
    case StoryBranch(_, _, _, _) => StoryKind
    case CandidateBranch(_, _, _) => CandidateKind
  }

  function Segments(b: Branch): (s: seq<string>)
    ensures s != []
  {
    match b
    case ItemBranch(item) => [item]
    case ProjectBranch(item, project) => [item, project]
    case WaveBranch(item, project, wave) => [item, project, WaveSegment(wave)]
    case StoryBranch(item, project, wave, story) => [item, project, WaveSegment(wave), story]
    case CandidateBranch(run, item, project) => [run, item, project]
  }

  function Join(segments: seq<string>): string
    requires segments != []
  {
    if |segments| == 1 then segments[0] else segments[0] + "__" + Join(segments[1..])
  }

  /** `joinBranch(kind, ...segments)`. */
  function Name(b: Branch): string { KindText(KindOf(b)) + "/" + Join(Segments(b)) }

  // ---------- reading a name back ----------

  function Split(s: string): seq<string>
    decreases |s|
  {
    var i := IndexOf(s, '_');
    if i + 2 <= |s| then [s[..i]] + Split(s[i + 2..]) else [s]
  }

  function WaveNumber(segment: string): Option<nat> {
    if |segment| > 1 && segment[0] == 'w' && AllDigits(segment[1..]) then Some(DigitsValue(segment[1..])) else None
  }

  function ParseKind(text: string): Option<Kind> {
    if text == KindText(ItemKind) then Some(ItemKind)
    else if text == KindText(ProjectKind) then Some(ProjectKind)
    else if text == KindText(WaveKind) then Some(WaveKind)
    else if text == KindText(StoryKind) then Some(StoryKind)
    else if text == KindText(CandidateKind) then Some(CandidateKind)
    else None
  }

  function FromSegments(kind: Kind, s: seq<string>): Option<Branch> {
    match kind
    case ItemKind => if |s| == 1 then Some(ItemBranch(s[0])) else None
    case ProjectKind => if |s| == 2 then Some(ProjectBranch(s[0], s[1])) else None
    case WaveKind =>
      if |s| == 3 && WaveNumber(s[2]).Some? then Some(WaveBranch(s[0], s[1], WaveNumber(s[2]).value)) else None
    case StoryKind =>
      if |s| == 4 && WaveNumber(s[2]).Some? then Some(StoryBranch(s[0], s[1], WaveNumber(s[2]).value, s[3])) else None
    case CandidateKind => if |s| == 3 then Some(CandidateBranch(s[0], s[1], s[2])) else None
  }

  function Parse(name: string): Option<Branch> {
    var slash := IndexOf(name, '/');
    if slash >= |name| || ParseKind(name[..slash]).None? then None
    else FromSegments(ParseKind(name[..slash]).value, Split(name[slash + 1..]))
  }

  lemma {:induction false} KindReads(kind: Kind)
    ensures ParseKind(KindText(kind)) == Some(kind)
    ensures forall k :: 0 <= k < |KindText(kind)| ==> KindText(kind)[k] != '/'
  {
    assert KindText(ItemKind)[0] == 'i' && KindText(ProjectKind)[0] == 'p' && KindText(WaveKind)[0] == 'w';
    assert KindText(StoryKind)[0] == 's' && KindText(CandidateKind)[0] == 'c';
  }

  predicate NoUnderscore(s: string) { forall i :: 0 <= i < |s| ==> s[i] != '_' }

  lemma {:induction false} SplitJoin(segments: seq<string>)
    requires segments != [] && forall k :: 0 <= k < |segments| ==> NoUnderscore(segments[k])
    ensures Split(Join(segments)) == segments
  {
    var s := Join(segments);
    if |segments| == 1 {
      assert NoUnderscore(segments[0]);
      assert IndexOf(s, '_') == |s|;
    } else {
      var head, rest := segments[0], Join(segments[1..]);
      SplitJoin(segments[1..]);
      assert NoUnderscore(head);
      assert s[|head|] == '_' && forall k :: 0 <= k < |head| ==> s[k] == head[k];
      IndexIs(s, '_', |head|);
      assert s[..|head|] == head && s[|head| + 2..] == rest;
    }
  }

  lemma {:induction false} WaveSegmentReads(n: nat)
    ensures WaveNumber(WaveSegment(n)) == Some(n) && NoUnderscore(WaveSegment(n))
  {
    var d := Decimal(n);
    assert WaveSegment(n)[1..] == d;
    DecimalValue(n);
    assert forall i :: 0 <= i < |d| ==> IsDigit(d[i]);
  }

  lemma {:induction false} SegmentsHaveNoUnderscore(b: Branch)
    requires AllSlugs(b)
    ensures forall k :: 0 <= k < |Segments(b)| ==> NoUnderscore(Segments(b)[k])
  {
    match b
    case WaveBranch(_, _, wave) => WaveSegmentReads(wave);
    case StoryBranch(_, _, wave, _) => WaveSegmentReads(wave);
    case _ =>
  }

  /** Behind the first "/" comes what was joined there, if nothing before it holds one. */
  lemma {:induction false} SlashTakesApart(kind: string, rest: string)
    requires forall k :: 0 <= k < |kind| ==> kind[k] != '/'
    ensures var name := kind + "/" + rest;
            IndexOf(name, '/') == |kind| && name[..|kind|] == kind && name[|kind| + 1..] == rest
  {
    var name := kind + "/" + rest;
    assert name[|kind|] == '/' && forall k :: 0 <= k < |kind| ==> name[k] == kind[k];
    IndexIs(name, '/', |kind|);
  }

  lemma {:induction false} SegmentsReadBack(b: Branch)
    ensures FromSegments(KindOf(b), Segments(b)) == Some(b)
  {
    hide WaveNumber, WaveSegment;
    match b
    case WaveBranch(_, _, wave) => WaveSegmentReads(wave);
    case StoryBranch(_, _, wave, _) => WaveSegmentReads(wave);
    case _ =>
  }

  /** Every branch name reads back as the branch it was made for: kind, slugs and wave
      number. */
  lemma {:induction false} NameReadsBack(b: Branch)
    requires AllSlugs(b)
    ensures Parse(Name(b)) == Some(b)
  {
    SegmentsHaveNoUnderscore(b);
    SplitJoin(Segments(b));
    SegmentsReadBack(b);
    KindReads(KindOf(b));
    hide KindText, KindOf, Join, Segments, ParseKind, Split, FromSegments, IndexOf, AllSlugs;
    SlashTakesApart(KindText(KindOf(b)), Join(Segments(b)));
  }

  /** Segments joined two underscores apart. */
  function Apart(a: string, b: string): string { a + "__" + b }

  /** The names themselves. */
  lemma {:induction false} NamesAreSpelled(run: string, item: string, project: string, wave: nat, story: string)
    ensures Name(ItemBranch(item)) == "item/" + item
    ensures Name(ProjectBranch(item, project)) == "proj/" + Apart(item, project)
    ensures Name(WaveBranch(item, project, wave)) == "wave/" + Apart(item, Apart(project, "w" + Decimal(wave)))
    ensures Name(StoryBranch(item, project, wave, story))
         == "story/" + Apart(item, Apart(project, Apart("w" + Decimal(wave), story)))
    ensures Name(CandidateBranch(run, item, project)) == "candidate/" + Apart(run, Apart(item, project))
  {
    var n := WaveSegment(wave);
    JoinTwo(item, project);
    JoinThree(item, project, n);
    JoinThree(run, item, project);
    JoinThree(project, n, story);
    assert [item, project, n, story][1..] == [project, n, story];
    assert Join([item, project, n, story]) == item + "__" + Join([project, n, story]);
    assert "item" + "/" == "item/" && "proj" + "/" == "proj/" && "wave" + "/" == "wave/" && "story" + "/" == "story/"
           && "candidate" + "/" == "candidate/";
    hide Decimal, Join, Apart;
  }

  lemma {:induction false} JoinTwo(a: string, b: string)
    ensures Join([a, b]) == Apart(a, b)
  {
    assert [a, b][1..] == [b];
  }

  lemma {:induction false} JoinThree(a: string, b: string, c: string)
    ensures Join([a, b, c]) == Apart(a, Apart(b, c))
  {
    assert [a, b, c][1..] == [b, c] && [b, c][1..] == [c];
    assert Join([b, c]) == Apart(b, c);
  }

  /** Two branches share a name only if they are the same kind with the same slugs. */
  lemma {:induction false} NamesAreUnique(a: Branch, b: Branch)
    requires AllSlugs(a) && AllSlugs(b) && Name(a) == Name(b)
    ensures a == b
  {
    NameReadsBack(a);
    NameReadsBack(b);
  }

  /** `/^(item|proj|wave|story|candidate)\//`. */
  predicate IsEngineOwned(name: string) {
    exists kind: Kind :: KindText(kind) + "/" <= name
  }

  lemma {:induction false} NamesAreEngineOwned(b: Branch)
    ensures IsEngineOwned(Name(b))
  {
    assert KindText(KindOf(b)) + "/" <= Name(b);
  }

  // ---------- the engine's naming functions ----------

  datatype NameError = MissingItemSlug

  /** The item slug of a workflow context, slugified again; a context without one throws. */
  function ContextSlug(lower: Lowering, contextItemSlug: string): Outcome<string, NameError> {
    if contextItemSlug == "" then Thrown(MissingItemSlug) else Ok(Slugify(lower, contextItemSlug, "item"))
  }

  function BranchNameItem(lower: Lowering, contextItemSlug: string): Outcome<string, NameError> {
    var slug := ContextSlug(lower, contextItemSlug);
    if slug.Thrown? then Thrown(slug.error) else Ok(Name(ItemBranch(slug.value)))
  }

  function BranchNameStory(lower: Lowering, contextItemSlug: string, projectId: string, wave: nat,
                           storyId: string): Outcome<string, NameError>
  {
    var slug := ContextSlug(lower, contextItemSlug);
    if slug.Thrown? then Thrown(slug.error)
    else Ok(Name(StoryBranch(slug.value, Slugify(lower, projectId, "branch"), wave, Slugify(lower, storyId, "branch"))))
  }

  /** A context without an item slug has no branch names; with one they are those of the
      slugs of its parts. */
  lemma {:induction false} ContextNames(lower: Lowering, itemSlug: string, projectId: string, wave: nat,
                                        storyId: string)
    ensures itemSlug == "" ==> BranchNameItem(lower, itemSlug) == Thrown(MissingItemSlug)
                               && BranchNameStory(lower, itemSlug, projectId, wave, storyId) == Thrown(MissingItemSlug)
    ensures itemSlug != "" ==> BranchNameItem(lower, itemSlug) == Ok("item/" + Slugify(lower, itemSlug, "item"))
    ensures itemSlug != "" ==>
              BranchNameStory(lower, itemSlug, projectId, wave, storyId)
              == Ok("story/" + Apart(Slugify(lower, itemSlug, "item"), Apart(Slugify(lower, projectId, "branch"),
                               Apart("w" + Decimal(wave), Slugify(lower, storyId, "branch")))))
  {
    hide Slugify, Name, Decimal;
    var item, project, story := Slugify(lower, itemSlug, "item"), Slugify(lower, projectId, "branch"), Slugify(lower, storyId, "branch");
    NamesAreSpelled("", item, project, wave, story);
  }

  /** The preview code writes the item branch as "item/" and the item slug. That is the
      engine's own name exactly when the slug comes from the title, or the lower-cased id
      that stands in for it happens to be a slug (or is empty, when the engine refuses). */
  lemma {:induction false} PreviewNameAgrees(lower: Lowering, item: Item)
    requires LowersAscii(lower)
    ensures BranchNameItem(lower, ItemSlug(lower, item)) == Ok("item/" + ItemSlug(lower, item))
       <==> HasSlugChar(LowerCase(lower, item.title)) || IsSlug(LowerCase(lower, item.id))
  {
    var slug := ItemSlug(lower, item);
    TitleSlug(lower, item.title);
    ItemNameOfSlug(lower, slug);
    hide LowerCase, BranchNameItem;
  }

  /** An item without a title whose id holds an underscore: the preview says "item/i_1" and
      the engine's branch is "item/i-1". */
  lemma {:induction false} PreviewCanNameAnotherBranch(lower: Lowering)
    requires LowersAscii(lower) && lower('I') == "i" && lower('_') == "_"
    ensures var item := Item("I_1", "");
            && "item/" + ItemSlug(lower, item) == "item/i_1"
            && BranchNameItem(lower, ItemSlug(lower, item)) == Ok("item/i-1")
  {
    var id, one := "I_1", "_1";
    assert id[1..] == one && one[1..] == "1" && "1"[1..] == "";
    assert LowerCase(lower, "1") == "1" && LowerCase(lower, one) == "_1" && LowerCase(lower, id) == "i_1";
    assert ItemSlug(lower, Item(id, "")) == "i_1";
    var slug := "i_1";
    assert slug[1..] == one;
    LowerIsItself(lower, slug);
    assert SkipRun("1") == "1" && ReplaceRuns("1") == "1" && ReplaceRuns(one) == "-1" && ReplaceRuns(slug) == "i-1";
    assert StripDashes("i-1") == "i-1";
    var again := Slugify(lower, slug, "item");
    assert again == "i-1";
    hide Slugify, ItemSlug, LowerCase, ReplaceRuns;
    assert Name(ItemBranch(again)) == "item/" + again;
    assert "item/" + again == "item/i-1";
  }

  lemma {:induction false} ItemNameOfSlug(lower: Lowering, slug: string)
    requires LowersAscii(lower)
    ensures BranchNameItem(lower, slug) == Ok("item/" + slug) <==> IsSlug(slug)
  {
    if slug != "" {
      var again := Slugify(lower, slug, "item");
      FallbacksAreSlugs();
      SlugifyGivesSlug(lower, slug, "item");
      if IsSlug(slug) {
        SlugifyKeepsSlugs(lower, slug, "item");
      }
      assert Name(ItemBranch(again)) == "item/" + again;
      hide Slugify, IsSlug, Name;
      SamePrefix("item/", again, slug);
    }
  }

  lemma {:induction false} SamePrefix(p: string, a: string, b: string)
    ensures p + a == p + b <==> a == b
  {
    assert (p + a)[|p|..] == a && (p + b)[|p|..] == b;
  }

  /** Story branches of a context are told apart by project slug, wave and story slug. */
  lemma {:induction false} StoryNamesAreUnique(lower: Lowering, itemSlug: string, p: string, q: string, v: nat, w: nat,
                                               s: string, t: string)
    requires itemSlug != "" && BranchNameStory(lower, itemSlug, p, v, s) == BranchNameStory(lower, itemSlug, q, w, t)
    ensures v == w && Slugify(lower, p, "branch") == Slugify(lower, q, "branch")
            && Slugify(lower, s, "branch") == Slugify(lower, t, "branch")
  {
    FallbacksAreSlugs();
    hide IsSlug, Slugify, Name;
    SlugifyGivesSlug(lower, itemSlug, "item");
    SlugifyGivesSlug(lower, p, "branch");
    SlugifyGivesSlug(lower, q, "branch");
    SlugifyGivesSlug(lower, s, "branch");
    SlugifyGivesSlug(lower, t, "branch");
    var item := Slugify(lower, itemSlug, "item");
    NamesAreUnique(StoryBranch(item, Slugify(lower, p, "branch"), v, Slugify(lower, s, "branch")),
                   StoryBranch(item, Slugify(lower, q, "branch"), w, Slugify(lower, t, "branch")));
  }

  lemma {:induction false} FallbacksAreSlugs()
    ensures IsSlug("item") && IsSlug("branch")
  {
  }
}
