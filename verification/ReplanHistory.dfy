/** Model of the plan side of replanning (`replan.ts`): the renaming that gives a
    replacement plan its own wave ids, and the version and history chain. */
module ReplanHistory {
  import opened Outcomes
  import opened Text

  datatype WaveKind = Setup | Feature

  /** `dependencies` is None when the field is not an array. */
  datatype Wave = Wave(id: string, number: int, kind: WaveKind, goal: string, dependencies: Option<seq<string>>,
                       storyIds: seq<string>)

  datatype Plan = Plan(summary: string, waves: seq<Wave>)

  datatype WaveSummary = WaveSummary(id: string, logicalId: string, number: int, kind: WaveKind, goal: string,
                                     storyIds: seq<string>)

  datatype RevisionSummary = RevisionSummary(version: int, generatedAt: int, summary: string, waves: seq<WaveSummary>)

  datatype RegenerationRecord = RegenerationRecord(reason: string, before: RevisionSummary, after: RevisionSummary)

  datatype PersistedPlan = PersistedPlan(plan: Plan, active: RevisionSummary, history: seq<RegenerationRecord>)

  // ---------- the renaming ----------

  function ActiveId(id: string, version: nat): string { id + "--r" + Decimal(version) }

  predicate IsWaveId(waves: seq<Wave>, id: string) {
    exists i :: 0 <= i < |waves| && waves[i].id == id
  }

  function RenamedDependency(waves: seq<Wave>, version: nat, dep: string): string {
    if IsWaveId(waves, dep) then ActiveId(dep, version) else dep
  }

  function RenamedDependencies(waves: seq<Wave>, version: nat, deps: Option<seq<string>>): seq<string> {
    if deps.None? then []
    else seq(|deps.value|, i requires 0 <= i < |deps.value| => RenamedDependency(waves, version, deps.value[i]))
  }

  function RenamedWave(waves: seq<Wave>, version: nat, wave: Wave): Wave {
    wave.(id := ActiveId(wave.id, version), dependencies := Some(RenamedDependencies(waves, version, wave.dependencies)))
  }

  function RenamedPlan(plan: Plan, version: nat): Plan {
    plan.(waves := seq(|plan.waves|, i requires 0 <= i < |plan.waves| => RenamedWave(plan.waves, version, plan.waves[i])))
  }

  /** Equal suffixed ids come from the same id and the same version. */
  lemma {:induction false} ActiveIdInjective(a: string, v: nat, b: string, w: nat)
    requires ActiveId(a, v) == ActiveId(b, w)
    ensures a == b && v == w
  {
    var s := ActiveId(a, v);
    var dv, dw := Decimal(v), Decimal(w);
    assert s[|s| - |dv|..] == dv && s[|s| - |dw|..] == dw;
    assert s[|s| - |dv| - 1] == 'r' && s[|s| - |dw| - 1] == 'r';
    SameSuffix(s, dv, dw);
    DecimalInjective(v, w);
    assert a == s[..|s| - |dv| - 3] && b == s[..|s| - |dw| - 3];
  }

  /** The digits at the end of a string, behind a letter, are determined by the string. */
  lemma {:induction false} SameSuffix(s: string, d: string, e: string)
    requires |d| < |s| && |e| < |s| && AllDigits(d) && AllDigits(e)
    requires s[|s| - |d|..] == d && s[|s| - |e|..] == e
    requires s[|s| - |d| - 1] == 'r' && s[|s| - |e| - 1] == 'r'
    ensures d == e
  {
  }

  /** Wave i names wave j among its dependencies. */
  predicate DependsOn(plan: Plan, i: nat, j: nat)
    requires i < |plan.waves| && j < |plan.waves|
  {
    plan.waves[i].dependencies.Some? && plan.waves[j].id in plan.waves[i].dependencies.value
  }

  ghost predicate SameGraph(a: Plan, b: Plan) {
    && |a.waves| == |b.waves|
    && forall i, j :: 0 <= i < |a.waves| && 0 <= j < |a.waves| ==> (DependsOn(a, i, j) <==> DependsOn(b, i, j))
  }

  /** A dangling dependency of wave i that is spelled like the new id of wave j, which wave
      i does not depend on. */
  predicate DanglingClash(plan: Plan, version: nat, i: nat, j: nat)
    requires i < |plan.waves| && j < |plan.waves|
  {
    && plan.waves[i].dependencies.Some?
    && ActiveId(plan.waves[j].id, version) in plan.waves[i].dependencies.value
    && !IsWaveId(plan.waves, ActiveId(plan.waves[j].id, version))
    && !DependsOn(plan, i, j)
  }

  lemma {:induction false} DependencyRenamed(plan: Plan, version: nat, i: nat, j: nat)
    requires i < |plan.waves| && j < |plan.waves|
    ensures DependsOn(RenamedPlan(plan, version), i, j) <==> DependsOn(plan, i, j) || DanglingClash(plan, version, i, j)
  {
    var wave, target := plan.waves[i], plan.waves[j].id;
    if wave.dependencies.Some? {
      var deps := wave.dependencies.value;
      var renamed := RenamedDependencies(plan.waves, version, wave.dependencies);
      if target in deps {
        var k :| 0 <= k < |deps| && deps[k] == target;
        assert IsWaveId(plan.waves, target);
        assert renamed[k] == ActiveId(target, version);
      }
      if DanglingClash(plan, version, i, j) {
        var k :| 0 <= k < |deps| && deps[k] == ActiveId(target, version);
        assert renamed[k] == deps[k];
      }
      if ActiveId(target, version) in renamed {
        var k :| 0 <= k < |renamed| && renamed[k] == ActiveId(target, version);
        if IsWaveId(plan.waves, deps[k]) {
          ActiveIdInjective(deps[k], version, target, version);
        }
      }
    }
  }

  /** The renaming preserves the dependency graph exactly when no dangling dependency is
      spelled like a new id. */
  lemma {:induction false} RenamingPreservesGraph(plan: Plan, version: nat)
    ensures SameGraph(plan, RenamedPlan(plan, version))
       <==> forall i, j :: 0 <= i < |plan.waves| && 0 <= j < |plan.waves| ==> !DanglingClash(plan, version, i, j)
  {
    forall i, j | 0 <= i < |plan.waves| && 0 <= j < |plan.waves|
      ensures DependsOn(RenamedPlan(plan, version), i, j)
              <==> DependsOn(plan, i, j) || DanglingClash(plan, version, i, j)
    {
      DependencyRenamed(plan, version, i, j);
    }
  }

  /** A plan whose graph the renaming changes: wave b names the not (yet) existing id
      "a--r2", and after the renaming to version 2 it depends on wave a. */
  lemma {:induction false} RenamingCanAddADependency()
    ensures var plan := Plan("", [Wave("a", 1, Feature, "", Some([]), []), Wave("b", 2, Feature, "", Some(["a--r2"]), [])]);
            !SameGraph(plan, RenamedPlan(plan, 2))
  {
    var plan := Plan("", [Wave("a", 1, Feature, "", Some([]), []), Wave("b", 2, Feature, "", Some(["a--r2"]), [])]);
    assert Decimal(2) == ['2'];
    assert ActiveId("a", 2) == "a--r2";
    assert plan.waves[1].dependencies.value[0] == ActiveId(plan.waves[0].id, 2);
    assert forall i :: 0 <= i < 2 ==> |plan.waves[i].id| == 1;
    assert DanglingClash(plan, 2, 1, 0);
    RenamingPreservesGraph(plan, 2);
  }

  /** Distinct waves keep distinct ids, equal ids stay equal. */
  lemma {:induction false} RenamingIsInjective(plan: Plan, version: nat, i: nat, j: nat)
    requires i < |plan.waves| && j < |plan.waves|
    ensures RenamedPlan(plan, version).waves[i].id == RenamedPlan(plan, version).waves[j].id
            <==> plan.waves[i].id == plan.waves[j].id
  {
    if RenamedPlan(plan, version).waves[i].id == RenamedPlan(plan, version).waves[j].id {
      ActiveIdInjective(plan.waves[i].id, version, plan.waves[j].id, version);
    }
  }

  /** What the renaming does to one wave: its id gets the suffix, and so does each dependency
      that some wave of the plan goes by; dangling ones, the order and everything else stay,
      and a field that is no array becomes the empty list. */
  lemma {:induction false} RenamingTouchesIdsOnly(plan: Plan, version: nat, i: nat)
    requires i < |plan.waves|
    ensures var renamed := RenamedPlan(plan, version);
            var wave, next := plan.waves[i], renamed.waves[i];
            var deps := if wave.dependencies.Some? then wave.dependencies.value else [];
            && renamed.summary == plan.summary && |renamed.waves| == |plan.waves|
            && next.id == wave.id + "--r" + Decimal(version)
            && next.number == wave.number && next.kind == wave.kind && next.goal == wave.goal && next.storyIds == wave.storyIds
            && next.dependencies.Some? && |next.dependencies.value| == |deps|
            && forall k :: 0 <= k < |deps| ==>
                 next.dependencies.value[k]
                 == if exists j :: 0 <= j < |plan.waves| && plan.waves[j].id == deps[k] then deps[k] + "--r" + Decimal(version)
                    else deps[k]
  {
    hide Decimal;
  }

  // ---------- summaries ----------

  /** `summarizePlan`; an id without an entry stands for itself. */
  function Summarized(plan: Plan, version: int, generatedAt: int, logicalIds: map<string, string>): RevisionSummary {
    RevisionSummary(version, generatedAt, plan.summary,
      seq(|plan.waves|, i requires 0 <= i < |plan.waves| =>
        var wave := plan.waves[i];
        WaveSummary(wave.id, if wave.id in logicalIds then logicalIds[wave.id] else wave.id, wave.number, wave.kind, wave.goal, wave.storyIds)))
  }

  /** The map the renaming loop fills: each new id back to the planner's id. */
  function LogicalIds(waves: seq<Wave>, version: nat): map<string, string> {
    if waves == [] then map[]
    else
      var wave := waves[|waves| - 1];
      LogicalIds(waves[..|waves| - 1], version)[ActiveId(wave.id, version) := wave.id]
  }

  lemma {:induction false} LogicalIdsInvert(waves: seq<Wave>, version: nat, i: nat)
    requires i < |waves|
    ensures var m := LogicalIds(waves, version);
            ActiveId(waves[i].id, version) in m && m[ActiveId(waves[i].id, version)] == waves[i].id
  {
    var last := waves[|waves| - 1];
    if ActiveId(waves[i].id, version) == ActiveId(last.id, version) {
      ActiveIdInjective(waves[i].id, version, last.id, version);
    } else {
      LogicalIdsInvert(waves[..|waves| - 1], version, i);
    }
  }

  function SummaryOfRenamed(plan: Plan, version: nat, generatedAt: int): RevisionSummary {
    Summarized(RenamedPlan(plan, version), version, generatedAt, LogicalIds(plan.waves, version))
  }

  /** Every wave of the summary carries the version in its id, and its logical id is the id
      the planner gave it. */
  lemma {:induction false} SummaryMapsBack(plan: Plan, version: nat, generatedAt: int, i: nat)
    requires i < |plan.waves|
    ensures var wave := SummaryOfRenamed(plan, version, generatedAt).waves[i];
            wave.logicalId == plan.waves[i].id && wave.id == ActiveId(wave.logicalId, version)
  {
    LogicalIdsInvert(plan.waves, version, i);
  }

  /** The rest of the summary is taken over from the plan. */
  lemma {:induction false} SummaryTakesOver(plan: Plan, version: nat, generatedAt: int, i: nat)
    requires i < |plan.waves|
    ensures var summary, wave := SummaryOfRenamed(plan, version, generatedAt), plan.waves[i];
            && summary.version == version && summary.generatedAt == generatedAt && summary.summary == plan.summary
            && |summary.waves| == |plan.waves|
            && summary.waves[i].number == wave.number && summary.waves[i].kind == wave.kind
            && summary.waves[i].goal == wave.goal && summary.waves[i].storyIds == wave.storyIds
  {
    hide ActiveId, LogicalIds;
  }

  /** The loop of `namespaceReplacementPlan` that fills the two maps. */
  method FillIdMaps(waves: seq<Wave>, version: nat)
    returns (idMap: map<string, string>, logicalIds: map<string, string>)
    ensures forall id :: id in idMap <==> IsWaveId(waves, id)
    ensures forall id :: id in idMap ==> idMap[id] == ActiveId(id, version)
    ensures logicalIds == LogicalIds(waves, version)
  {
    idMap, logicalIds := map[], map[];
    for i := 0 to |waves|
      invariant forall id :: id in idMap <==> IsWaveId(waves[..i], id)
      invariant forall id :: id in idMap ==> idMap[id] == ActiveId(id, version)
      invariant logicalIds == LogicalIds(waves[..i], version)
    {
      var activeId := ActiveId(waves[i].id, version);
      idMap := idMap[waves[i].id := activeId];
      logicalIds := logicalIds[activeId := waves[i].id];
      assert waves[..i + 1][..i] == waves[..i];
      WaveIdsGrow(waves, i);
    }
    assert waves[..|waves|] == waves;
  }

  method NamespaceReplacementPlan(replacement: Plan, version: nat, generatedAt: int)
    returns (renamed: Plan, summary: RevisionSummary)
    ensures renamed == RenamedPlan(replacement, version)
    ensures summary == SummaryOfRenamed(replacement, version, generatedAt)
  {
    hide ActiveId, LogicalIds;
    var waves := replacement.waves;
    var idMap, logicalIds := FillIdMaps(waves, version);
    renamed := replacement.(waves := seq(|waves|, i requires 0 <= i < |waves| =>
      var wave := waves[i];
      var deps := if wave.dependencies.None? then [] else wave.dependencies.value;
      wave.(id := if wave.id in idMap then idMap[wave.id] else wave.id,
            dependencies := Some(seq(|deps|, k requires 0 <= k < |deps| => if deps[k] in idMap then idMap[deps[k]] else deps[k])))));
    assert forall i :: 0 <= i < |waves| ==> IsWaveId(waves, waves[i].id);
    forall i | 0 <= i < |waves| ensures renamed.waves[i] == RenamedWave(waves, version, waves[i]) {
      assert renamed.waves[i].dependencies.value == RenamedDependencies(waves, version, waves[i].dependencies);
    }
    assert renamed.waves == RenamedPlan(replacement, version).waves;
    summary := Summarized(renamed, version, generatedAt, logicalIds);
  }

  lemma {:induction false} WaveIdsGrow(waves: seq<Wave>, i: nat)
    requires i < |waves|
    ensures forall id :: IsWaveId(waves[..i + 1], id) <==> IsWaveId(waves[..i], id) || id == waves[i].id
  {
    forall id ensures IsWaveId(waves[..i + 1], id) <==> IsWaveId(waves[..i], id) || id == waves[i].id {
      if IsWaveId(waves[..i], id) {
        var k :| 0 <= k < i && waves[..i][k].id == id;
        assert waves[..i + 1][k].id == id;
      }
      if id == waves[i].id {
        assert waves[..i + 1][i].id == id;
      }
      if IsWaveId(waves[..i + 1], id) && id != waves[i].id {
        var k :| 0 <= k <= i && waves[..i + 1][k].id == id;
        assert waves[..i][k].id == id;
      }
    }
  }

  // ---------- the history chain ----------

  /** What a plan file holds; the metadata fields may be missing. */
  datatype PlanFile = PlanFile(plan: Plan, active: Option<RevisionSummary>, history: Option<seq<RegenerationRecord>>)

  /** `applyPersistedMetadata`: a plan without metadata is version 1 with no history. */
  function Loaded(file: PlanFile, now: int): PersistedPlan {
    PersistedPlan(file.plan,
      if file.active.Some? then file.active.value else Summarized(file.plan, 1, now, map[]),
      if file.history.Some? then file.history.value else [])
  }

  function Saved(p: PersistedPlan): PlanFile { PlanFile(p.plan, Some(p.active), Some(p.history)) }

  /** What one replan writes over the current plan. */
  function Replanned(current: PersistedPlan, replacement: Plan, reason: string, now: int): PersistedPlan
    requires current.active.version >= 0
  {
    var version := current.active.version + 1;
    var after := SummaryOfRenamed(replacement, version, now);
    PersistedPlan(RenamedPlan(replacement, version), after, current.history + [RegenerationRecord(reason, current.active, after)])
  }

  /** Consecutive versions, each record starting where the one before ended, the last one
      ending in the active plan. */
  ghost predicate Chained(p: PersistedPlan) {
    && (forall i :: 0 <= i < |p.history| ==> p.history[i].after.version == p.history[i].before.version + 1)
    && (forall i :: 0 <= i < |p.history| - 1 ==> p.history[i].after == p.history[i + 1].before)
    && (p.history != [] ==> p.history[|p.history| - 1].after == p.active)
    && (p.history == [] ==> p.active.version >= 1)
    && (p.history != [] ==> p.history[0].before.version >= 1)
  }

  /** Every wave id of a revision carries the revision's version. */
  ghost predicate Namespaced(r: RevisionSummary) {
    r.version >= 0 && forall i :: 0 <= i < |r.waves| ==> r.waves[i].id == ActiveId(r.waves[i].logicalId, r.version)
  }

  ghost predicate AllNamespaced(p: PersistedPlan) {
    forall i :: 0 <= i < |p.history| ==> Namespaced(p.history[i].after)
  }

  lemma {:induction false} ChainVersions(p: PersistedPlan, i: nat)
    requires Chained(p) && i < |p.history|
    ensures p.history[i].after.version == p.history[0].before.version + i + 1
  {
    if i > 0 {
      ChainVersions(p, i - 1);
    }
  }

  lemma {:induction false} ActiveVersion(p: PersistedPlan)
    requires Chained(p)
    ensures p.active.version
            == (if p.history == [] then p.active.version else p.history[0].before.version + |p.history|)
    ensures p.active.version >= 1
  {
    if p.history != [] {
      ChainVersions(p, |p.history| - 1);
    }
  }

  /** One replan keeps the chain, counts one up and forgets nothing. */
  lemma {:induction false} ReplanKeepsChain(current: PersistedPlan, replacement: Plan, reason: string, now: int)
    requires Chained(current) && AllNamespaced(current)
    ensures current.active.version >= 1
    ensures var next := Replanned(current, replacement, reason, now);
            && Chained(next) && AllNamespaced(next)
            && next.active.version == current.active.version + 1
            && next.history[..|current.history|] == current.history
            && |next.history| == |current.history| + 1
  {
    ActiveVersion(current);
    var version := current.active.version + 1;
    var after := SummaryOfRenamed(replacement, version, now);
    forall i | 0 <= i < |after.waves| ensures after.waves[i].id == ActiveId(after.waves[i].logicalId, version) {
      SummaryMapsBack(replacement, version, now, i);
    }
    assert Namespaced(after) && after.version == version;
    hide SummaryOfRenamed, RenamedPlan, Namespaced;
    assert Replanned(current, replacement, reason, now).history[..|current.history|] == current.history;
  }

  /** What a replan leaves: the renamed replacement, its summary, and the history with one
      record more, which leads from the revision before to this one. */
  lemma {:induction false} ReplanIsRecorded(current: PersistedPlan, replacement: Plan, reason: string, now: int)
    requires current.active.version >= 0
    ensures var next := Replanned(current, replacement, reason, now);
            && next.plan == RenamedPlan(replacement, current.active.version + 1)
            && next.active == SummaryOfRenamed(replacement, current.active.version + 1, now)
            && next.history == current.history + [RegenerationRecord(reason, current.active, next.active)]
  {
    hide RenamedPlan, SummaryOfRenamed;
  }

  /** What loading fills in, field by field: the first version, made up from the waves as they
      are, and an empty history. */
  lemma {:induction false} LoadingFillsIn(file: PlanFile, now: int)
    ensures var p := Loaded(file, now);
            && p.plan == file.plan
            && (file.history.Some? ==> p.history == file.history.value) && (file.history.None? ==> p.history == [])
            && (file.active.Some? ==> p.active == file.active.value)
            && (file.active.None? ==>
                  && p.active.version == 1 && p.active.generatedAt == now && p.active.summary == file.plan.summary
                  && |p.active.waves| == |file.plan.waves|
                  && forall i :: 0 <= i < |file.plan.waves| ==>
                       var wave := file.plan.waves[i];
                       p.active.waves[i] == WaveSummary(wave.id, wave.id, wave.number, wave.kind, wave.goal, wave.storyIds))
  {
  }

  /** In a chained history no wave id of one revision is a wave id of another. */
  lemma {:induction false} RevisionsNeverCollide(p: PersistedPlan, i: nat, j: nat, a: nat, b: nat)
    requires Chained(p) && AllNamespaced(p)
    requires i < j < |p.history| && a < |p.history[i].after.waves| && b < |p.history[j].after.waves|
    ensures p.history[i].after.waves[a].id != p.history[j].after.waves[b].id
  {
    var x, y := p.history[i].after.waves[a], p.history[j].after.waves[b];
    ChainVersions(p, i);
    ChainVersions(p, j);
    if x.id == y.id {
      ActiveIdInjective(x.logicalId, p.history[i].after.version, y.logicalId, p.history[j].after.version);
    }
  }

  lemma {:induction false} FreshPlanIsChained(plan: Plan, now: int)
    ensures var p := Loaded(PlanFile(plan, None, None), now);
            Chained(p) && AllNamespaced(p) && p.active.version == 1
  {
  }

  lemma {:induction false} SavedLoadsBack(p: PersistedPlan, now: int)
    ensures Loaded(Saved(p), now) == p
  {
  }

  // ---------- any number of replans ----------

  datatype Request = Request(replacement: Plan, reason: string, now: int)

  ghost function AfterReplans(p: PersistedPlan, requests: seq<Request>): PersistedPlan
    requires Chained(p) && AllNamespaced(p)
    decreases |requests|
  {
    if requests == [] then p
    else
      var r := requests[0];
      ReplanKeepsChain(p, r.replacement, r.reason, r.now);
      AfterReplans(Replanned(p, r.replacement, r.reason, r.now), requests[1..])
  }

  /** The history of q is that of p and one record for each request: the k-th new record
      carries the k-th reason and version. */
  ghost predicate Extends(p: PersistedPlan, q: PersistedPlan, requests: seq<Request>) {
    && q.active.version == p.active.version + |requests|
    && |q.history| == |p.history| + |requests|
    && p.history == q.history[..|p.history|]
    && forall k :: |p.history| <= k < |q.history| ==>
                     && q.history[k].reason == requests[k - |p.history|].reason
                     && q.history[k].after.version == p.active.version + (k - |p.history|) + 1
  }

  lemma {:induction false} ExtendsOneMore(p: PersistedPlan, next: PersistedPlan, q: PersistedPlan,
                                          requests: seq<Request>)
    requires requests != [] && Extends(p, next, requests[..1]) && Extends(next, q, requests[1..])
    ensures Extends(p, q, requests)
  {
    var n := |p.history|;
    assert q.history[..n] == q.history[..n + 1][..n];
    assert q.history[n] == q.history[..n + 1][n];
    forall k | n <= k < |q.history|
      ensures q.history[k].reason == requests[k - n].reason
              && q.history[k].after.version == p.active.version + (k - n) + 1
    {
      if k > n {
        assert requests[k - n] == requests[1..][k - (n + 1)];
      }
    }
  }

  /** Over any number of replans: versions are consecutive, each record starts where the
      one before ended, the k-th new record carries the k-th reason and version, and the
      history there was is still there. */
  lemma {:induction false} HistoryOverReplans(p: PersistedPlan, requests: seq<Request>)
    requires Chained(p) && AllNamespaced(p)
    ensures var q := AfterReplans(p, requests);
            Chained(q) && AllNamespaced(q) && Extends(p, q, requests)
    decreases |requests|
  {
    if requests != [] {
      var r := requests[0];
      ReplanKeepsChain(p, r.replacement, r.reason, r.now);
      var next := Replanned(p, r.replacement, r.reason, r.now);
      assert Extends(p, next, requests[..1]);
      hide Extends, Chained, AllNamespaced, Replanned;
      HistoryOverReplans(next, requests[1..]);
      ExtendsOneMore(p, next, AfterReplans(p, requests), requests);
    }
  }
}
