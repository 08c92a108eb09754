/** Model of `activatePreparedReplan` and `performExplicitReplan` (`replan.ts`): archiving
    the active plan and the execution trees, installing the staged plan, and putting the
    trees back when a step fails.

    Every file operation may fail, a failed copy may leave a torn file behind, `pathExists`
    reports a path it cannot stat as absent, and the undo itself may fail. */
module ReplanActivation {
  import opened Outcomes
  import opened Ordering
  import ReplanHistory

  datatype ArtifactKind = PlanningJson | PlanningMarkdown | ExecutionWaves | Handoffs | SupabaseHandoff

  /** The paths a replan touches; `op` is the operation id that makes the archive fresh. */
  datatype Path =
    | Active(kind: ArtifactKind)
    | Archived(op: nat, kind: ArtifactKind)
    | Staged(op: nat, kind: ArtifactKind)
    | StagedAudit(op: nat, markdown: bool)
    | Audit(op: nat, markdown: bool)

  /** Directory trees move as a whole, so they are one node each. */
  datatype Content = PlanJson(file: ReplanHistory.PlanFile) | Document(text: string) | Tree(id: int) | Torn

  type Files = map<Path, Content>

  /** Which operations fail. `fails(n)`: the n-th file operation of the process;
      `tears(n)`: if it is a copy it leaves a torn target; `statFails`: `pathExists` answers
      false although the path exists; `databaseFails(n)`: the n-th of the six database
      steps. */
  datatype Faults = Faults(
    fails: nat -> bool,
    tears: nat -> bool,
    statFails: Path -> bool,
    databaseFails: nat -> bool)

  /** The recovery columns of the run row. */
  datatype RecoveryRow = RecoveryRow(status: Option<string>, scope: Option<string>, scopeRef: Option<string>,
                                     payload: Option<string>)

  /** `recoveryTransition`: the scope is widened to the run, and every reference to a stage
      or story of the old plan goes. */
  function RecoveryAfter(row: RecoveryRow): RecoveryRow {
    row.(scope := if row.status.Some? then Some("run") else row.scope, scopeRef := None, payload := None)
  }

  /** The recovery is for the run as a whole: nothing refers to a stage or story of the old
      plan any more. A run without a recovery has no scope to widen. */
  ghost predicate WidenedToRun(before: RecoveryRow, after: RecoveryRow) {
    && after.status == before.status
    && after.scope == (if before.status == None then before.scope else Some("run"))
    && after.scopeRef == None && after.payload == None
  }

  /** How far the activation came. */
  datatype Phase = Preparing | Archiving | InstallingJson | InstallingRest | Database | Done

  predicate IsTree(kind: ArtifactKind) { kind in {ExecutionWaves, Handoffs, SupabaseHandoff} }

  predicate SameAt(a: Files, b: Files, path: Path) {
    (path in a <==> path in b) && (path in a ==> a[path] == b[path])
  }

  /** Exactly the trees in `away` have left their place for the archive, whole. */
  ghost predicate Displaced(before: Files, now: Files, op: nat, away: set<ArtifactKind>) {
    forall k :: IsTree(k) ==> TreeIsAt(before, now, op, k, k in away)
  }

  predicate TreeIsAt(before: Files, now: Files, op: nat, k: ArtifactKind, away: bool) {
    if away then
      && Active(k) in before && Active(k) !in now
      && Archived(op, k) in now && now[Archived(op, k)] == before[Active(k)]
    else SameAt(before, now, Active(k)) && SameAt(before, now, Archived(op, k))
  }

  /** The old plan is still readable, at the active path or in the archive. */
  predicate PlanIntact(before: Files, now: Files, op: nat) {
    Active(PlanningJson) in before ==>
      || (Active(PlanningJson) in now && now[Active(PlanningJson)] == before[Active(PlanningJson)])
      || (Archived(op, PlanningJson) in now && now[Archived(op, PlanningJson)] == before[Active(PlanningJson)])
  }

  /** The archive of this operation is new, as its random id makes it. */
  ghost predicate FreshArchive(files: Files, op: nat) {
    forall k :: Archived(op, k) !in files
  }

  ghost predicate ExtendedBy(a: seq<Files>, b: seq<Files>) {
    |a| <= |b| && b[..|a|] == a
  }

  /** Since `from`, the old plan has been readable at every moment. */
  ghost predicate IntactSince(trace: seq<Files>, from: nat, before: Files, op: nat) {
    forall i :: from <= i < |trace| ==> PlanIntact(before, trace[i], op)
  }

  /** `archivedArtifacts`: the two plan documents, then the trees found at preparation. */
  ghost predicate ArchiveList(kinds: seq<ArtifactKind>) {
    && NoDuplicates(kinds)
    && |kinds| >= 2 && kinds[0] == PlanningJson && kinds[1] == PlanningMarkdown
    && forall i :: 2 <= i < |kinds| ==> IsTree(kinds[i])
  }

  /** A place a tree is moved from or to. */
  predicate IsTreePlace(p: Path, op: nat) {
    (p.Active? && IsTree(p.kind)) || (p.Archived? && p.op == op && IsTree(p.kind))
  }

  ghost predicate OnlyTreesMoved(before: Files, now: Files, op: nat) {
    forall p: Path :: !IsTreePlace(p, op) ==> SameAt(before, now, p)
  }

  /** Outside the trees' places and this operation's archive nothing changed. */
  ghost predicate OnlyArchiving(before: Files, now: Files, op: nat) {
    forall p: Path :: !IsTreePlace(p, op) && !(p.Archived? && p.op == op) ==> SameAt(before, now, p)
  }

  /** The trees an archive list makes the activation move. */
  ghost function Movable(f: Faults, before: Files, kinds: seq<ArtifactKind>): set<ArtifactKind> {
    set k | k in kinds && IsTree(k) && Active(k) in before && !f.statFails(Active(k))
  }

  ghost function SetOf(s: seq<ArtifactKind>): set<ArtifactKind> { set k | k in s }

  lemma {:induction false} SetOfAppend(s: seq<ArtifactKind>, kind: ArtifactKind)
    ensures SetOf(s + [kind]) == SetOf(s) + {kind}
  {
  }

  lemma {:induction false} DistinctAppend(s: seq<ArtifactKind>, kind: ArtifactKind)
    requires NoDuplicates(s) && kind !in s
    ensures NoDuplicates(s + [kind])
  {
  }

  lemma {:induction false} LastIsElsewhere(s: seq<ArtifactKind>, n: nat)
    requires NoDuplicates(s) && 0 < n <= |s|
    ensures s[n - 1] !in SetOf(s[..n - 1]) && s[n - 1] !in SetOf(s[n..])
            && SetOf(s[n..]) + {s[n - 1]} == SetOf(s[n - 1..])
  {
  }

  lemma {:induction false} CopyKeepsTrees(before: Files, now: Files, next: Files, op: nat, kind: ArtifactKind,
                                          away: set<ArtifactKind>)
    requires Displaced(before, now, op, away) && OnlyArchiving(before, now, op) && !IsTree(kind)
    requires forall p :: p != Archived(op, kind) ==> SameAt(now, next, p)
    ensures Displaced(before, next, op, away) && OnlyArchiving(before, next, op)
  {
    forall k | IsTree(k) ensures TreeIsAt(before, next, op, k, k in away) {
      assert TreeIsAt(before, now, op, k, k in away);
      assert SameAt(now, next, Active(k)) && SameAt(now, next, Archived(op, k));
    }
    forall p: Path | !IsTreePlace(p, op) && !(p.Archived? && p.op == op) ensures SameAt(before, next, p) {
      assert SameAt(before, now, p) && SameAt(now, next, p);
    }
  }

  lemma {:induction false} MoveDisplaces(before: Files, now: Files, op: nat, kind: ArtifactKind,
                                         away: set<ArtifactKind>)
    requires Displaced(before, now, op, away) && OnlyArchiving(before, now, op)
    requires IsTree(kind) && kind !in away && Active(kind) in now
    ensures var next := (now - {Active(kind)})[Archived(op, kind) := now[Active(kind)]];
            Displaced(before, next, op, away + {kind}) && OnlyArchiving(before, next, op) && Active(kind) in before
  {
    var next := (now - {Active(kind)})[Archived(op, kind) := now[Active(kind)]];
    forall k | IsTree(k) ensures TreeIsAt(before, next, op, k, k in away + {kind}) {
      assert TreeIsAt(before, now, op, k, k in away);
    }
  }

  lemma {:induction false} RestoreReplaces(before: Files, now: Files, op: nat, kind: ArtifactKind,
                                           away: set<ArtifactKind>)
    requires Displaced(before, now, op, away) && IsTree(kind) && kind in away && Archived(op, kind) !in before
    ensures Archived(op, kind) in now
    ensures var next := (now - {Archived(op, kind)})[Active(kind) := now[Archived(op, kind)]];
            Displaced(before, next, op, away - {kind}) && OnlyTreesMoved(now, next, op)
  {
    assert TreeIsAt(before, now, op, kind, true);
    var next := (now - {Archived(op, kind)})[Active(kind) := now[Archived(op, kind)]];
    forall k | IsTree(k) ensures TreeIsAt(before, next, op, k, k in away - {kind}) {
      assert TreeIsAt(before, now, op, k, k in away);
    }
  }

  /** The undo meets no fault: it can stat every archived tree, and none of the two
      operations it makes for each of them fails. */
  ghost predicate UndoWorks(f: Faults, op: nat, moved: seq<ArtifactKind>, start: nat) {
    && (forall k :: k in moved ==> !f.statFails(Archived(op, k)))
    && (forall n :: start <= n < start + 2 * |moved| ==> !f.fails(n))
  }

  /** How the undo stands after the trees in `done`: what is stranded could not be stat'ed,
      and as long as nothing is, every step made its two operations. */
  ghost predicate UndoneSoFar(f: Faults, op: nat, done: seq<ArtifactKind>, start: nat, now: nat,
                              stranded: set<ArtifactKind>)
  {
    && stranded <= SetOf(done)
    && start <= now <= start + 2 * |done|
    && (forall k :: k in stranded ==> f.statFails(Archived(op, k)))
    && (stranded == {} ==> now == start + 2 * |done| && UndoWorks(f, op, done, start))
  }

  /** The trees that are away while the undo has n of the moved ones ahead of it. */
  ghost function AwayWith(moved: seq<ArtifactKind>, n: nat, stranded: set<ArtifactKind>): set<ArtifactKind>
    requires n <= |moved|
  {
    SetOf(moved[..n]) + stranded
  }

  lemma {:induction false} StepSkipped(f: Faults, op: nat, moved: seq<ArtifactKind>, n: nat, start: nat, now: nat,
                                       stranded: set<ArtifactKind>)
    requires NoDuplicates(moved) && 0 < n <= |moved| && UndoneSoFar(f, op, moved[n..], start, now, stranded)
    requires f.statFails(Archived(op, moved[n - 1]))
    ensures UndoneSoFar(f, op, moved[n - 1..], start, now, stranded + {moved[n - 1]})
    ensures AwayWith(moved, n - 1, stranded + {moved[n - 1]}) == AwayWith(moved, n, stranded)
  {
    assert moved[n - 1..] == [moved[n - 1]] + moved[n..];
    KindIsInOnePart(moved, n, stranded, f, op, start, now);
  }

  lemma {:induction false} StepRestored(f: Faults, op: nat, moved: seq<ArtifactKind>, n: nat, start: nat, now: nat,
                                        stranded: set<ArtifactKind>)
    requires NoDuplicates(moved) && 0 < n <= |moved| && UndoneSoFar(f, op, moved[n..], start, now, stranded)
    requires !f.statFails(Archived(op, moved[n - 1])) && !f.fails(now) && !f.fails(now + 1)
    ensures UndoneSoFar(f, op, moved[n - 1..], start, now + 2, stranded)
    ensures AwayWith(moved, n - 1, stranded) == AwayWith(moved, n, stranded) - {moved[n - 1]}
  {
    assert moved[n - 1..] == [moved[n - 1]] + moved[n..];
    KindIsInOnePart(moved, n, stranded, f, op, start, now);
  }

  lemma {:induction false} StepThrown(f: Faults, op: nat, moved: seq<ArtifactKind>, n: nat, start: nat, now: nat,
                                      stranded: set<ArtifactKind>)
    requires 0 < n <= |moved| && UndoneSoFar(f, op, moved[n..], start, now, stranded)
             && (f.fails(now) || f.fails(now + 1))
    ensures !UndoWorks(f, op, moved, start)
    ensures start <= now && now + 2 <= start + 2 * |moved|
  {
    if stranded != {} {
      var k :| k in stranded;
      assert k in moved[n..] && k in moved;
    }
  }

  lemma {:induction false} UndoneAll(f: Faults, op: nat, moved: seq<ArtifactKind>, start: nat, now: nat,
                                     stranded: set<ArtifactKind>)
    requires UndoneSoFar(f, op, moved, start, now, stranded)
    ensures stranded == {} <==> UndoWorks(f, op, moved, start)
    ensures start <= now <= start + 2 * |moved|
  {
    if stranded != {} {
      var k :| k in stranded;
      assert k in moved && f.statFails(Archived(op, k));
    }
  }

  lemma {:induction false} AwayAtTheEnds(moved: seq<ArtifactKind>, stranded: set<ArtifactKind>)
    ensures AwayWith(moved, |moved|, {}) == SetOf(moved) && moved[|moved|..] == []
    ensures AwayWith(moved, 0, stranded) == stranded && moved[0..] == moved
  {
    assert moved[..|moved|] == moved;
  }

  lemma {:induction false} KindIsAway(moved: seq<ArtifactKind>, n: nat, stranded: set<ArtifactKind>)
    requires 0 < n <= |moved|
    ensures moved[n - 1] in AwayWith(moved, n, stranded)
  {
    assert moved[..n][n - 1] == moved[n - 1];
  }

  lemma {:induction false} KindIsInOnePart(moved: seq<ArtifactKind>, n: nat, stranded: set<ArtifactKind>, f: Faults,
                                           op: nat, start: nat, now: nat)
    requires NoDuplicates(moved) && 0 < n <= |moved| && UndoneSoFar(f, op, moved[n..], start, now, stranded)
    ensures var kind, rest := moved[n - 1], SetOf(moved[..n - 1]);
            && kind in SetOf(moved[..n]) + stranded
            && SetOf(moved[..n]) + stranded - {kind} == rest + stranded
            && SetOf(moved[..n]) + stranded == rest + (stranded + {kind})
  {
    LastIsElsewhere(moved, n);
    assert moved[..n] == moved[..n - 1] + [moved[n - 1]];
    SetOfAppend(moved[..n - 1], moved[n - 1]);
  }

  /** Since `from`, neither place of the plan changed. */
  ghost predicate PlanPlacesSame(trace: seq<Files>, from: nat, before: Files, op: nat) {
    forall i :: from <= i < |trace| ==>
                  SameAt(before, trace[i], Active(PlanningJson)) && SameAt(before, trace[i], Archived(op, PlanningJson))
  }

  /** What the undo keeps from `first` on. */
  ghost predicate UndoKeeps(first: seq<Files>, trace: seq<Files>, before: Files, now: Files, op: nat) {
    ExtendedBy(first, trace) && PlanPlacesSame(trace, |first|, before, op) && OnlyTreesMoved(before, now, op)
  }

  lemma {:induction false} UndoKeepsOn(first: seq<Files>, earlier: seq<Files>, later: seq<Files>, before: Files,
                                       last: Files, now: Files, op: nat)
    requires UndoKeeps(first, earlier, before, last, op) && ExtendedBy(earlier, later) && OnlyTreesMoved(last, now, op)
    requires forall i :: |earlier| <= i < |later| ==> later[i] == now
    ensures UndoKeeps(first, later, before, now, op)
  {
    forall p: Path | !IsTreePlace(p, op) ensures SameAt(before, now, p) {
      assert SameAt(before, last, p) && SameAt(last, now, p);
    }
    assert later[..|first|] == later[..|earlier|][..|first|];
    assert forall i :: |first| <= i < |earlier| ==> later[i] == later[..|earlier|][i];
    assert !IsTreePlace(Active(PlanningJson), op) && !IsTreePlace(Archived(op, PlanningJson), op);
  }

  /** No file operation fails. */
  ghost predicate FilesWork(f: Faults) { forall n: nat :: !f.fails(n) }

  /** None of the six database steps fails. */
  ghost predicate DatabaseWorks(f: Faults) { forall n: nat :: n < 6 ==> !f.databaseFails(n) }

  /** The plan, its rendering and the audit are staged. */
  predicate AllStaged(files: Files, op: nat) {
    && Staged(op, PlanningJson) in files && Staged(op, PlanningMarkdown) in files
    && StagedAudit(op, false) in files && StagedAudit(op, true) in files
  }

  predicate StagedAre(files: Files, op: nat, plan: Content, rendered: Content, auditJson: Content, auditText: Content) {
    && AllStaged(files, op)
    && files[Staged(op, PlanningJson)] == plan && files[Staged(op, PlanningMarkdown)] == rendered
    && files[StagedAudit(op, false)] == auditJson && files[StagedAudit(op, true)] == auditText
  }

  /** Nothing that is staged changed. */
  predicate SameStaged(before: Files, now: Files, op: nat) {
    && SameAt(before, now, Staged(op, PlanningJson)) && SameAt(before, now, Staged(op, PlanningMarkdown))
    && SameAt(before, now, StagedAudit(op, false)) && SameAt(before, now, StagedAudit(op, true))
  }

  /** The rendering of the plan and both forms of the audit are the staged ones. */
  predicate DocumentsInstalled(before: Files, now: Files, op: nat) {
    && AllStaged(before, op)
    && Active(PlanningMarkdown) in now && now[Active(PlanningMarkdown)] == before[Staged(op, PlanningMarkdown)]
    && Audit(op, false) in now && now[Audit(op, false)] == before[StagedAudit(op, false)]
    && Audit(op, true) in now && now[Audit(op, true)] == before[StagedAudit(op, true)]
  }

  /** Both plan documents that could be examined have a copy in the archive. */
  predicate DocumentsArchived(f: Faults, before: Files, now: Files, op: nat) {
    forall k :: !IsTree(k) && Active(k) in before && !f.statFails(Active(k)) ==>
                  Archived(op, k) in now && now[Archived(op, k)] == before[Active(k)]
  }

  /** The plan documents among `done` that could be examined have a copy in the archive. */
  ghost predicate Copied(f: Faults, before: Files, now: Files, op: nat, done: seq<ArtifactKind>) {
    forall k :: k in done && !IsTree(k) && Active(k) in before && !f.statFails(Active(k)) ==>
                  Archived(op, k) in now && now[Archived(op, k)] == before[Active(k)]
  }

  lemma {:induction false} CopyAddsOne(f: Faults, before: Files, now: Files, next: Files, op: nat,
                                       done: seq<ArtifactKind>,
                                       kind: ArtifactKind, ok: bool)
    requires Copied(f, before, now, op, done) && OnlyArchiving(before, now, op) && !IsTree(kind)
    requires kind !in done && forall p :: p != Archived(op, kind) ==> SameAt(now, next, p)
    requires ok && Active(kind) in now && !f.statFails(Active(kind)) ==>
               Archived(op, kind) in next && next[Archived(op, kind)] == now[Active(kind)]
    ensures ok ==> Copied(f, before, next, op, done + [kind])
  {
    assert SameAt(before, now, Active(kind)) by {
      assert !IsTreePlace(Active(kind), op);
    }
    forall k | k in done ensures SameAt(now, next, Archived(op, k)) {
    }
  }

  lemma {:induction false} MoveKeepsCopies(f: Faults, before: Files, now: Files, next: Files, op: nat,
                                           done: seq<ArtifactKind>,
                                           kind: ArtifactKind)
    requires Copied(f, before, now, op, done) && IsTree(kind)
    requires next == now
             || (Active(kind) in now && next == (now - {Active(kind)})[Archived(op, kind) := now[Active(kind)]])
    ensures Copied(f, before, next, op, done + [kind])
  {
  }

  lemma {:induction false} AllCopied(f: Faults, before: Files, now: Files, op: nat, kinds: seq<ArtifactKind>)
    requires ArchiveList(kinds) && Copied(f, before, now, op, kinds)
    ensures DocumentsArchived(f, before, now, op)
  {
    forall k | !IsTree(k) ensures k in kinds {
      assert k == PlanningJson || k == PlanningMarkdown;
      assert kinds[0] in kinds && kinds[1] in kinds;
    }
  }

  /** Archiving leaves the active plan where it is. */
  lemma {:induction false} ArchivingKeepsThePlan(first: seq<Files>, earlier: seq<Files>, later: seq<Files>,
                                                 before: Files, now: Files, op: nat)
    requires ExtendedBy(first, earlier) && IntactSince(earlier, |first|, before, op) && ExtendedBy(earlier, later)
    requires OnlyArchiving(before, now, op) && forall i :: |earlier| <= i < |later| ==> later[i] == now
    ensures ExtendedBy(first, later) && IntactSince(later, |first|, before, op)
  {
    assert SameAt(before, now, Active(PlanningJson)) by {
      assert !IsTreePlace(Active(PlanningJson), op);
    }
    assert later[..|first|] == later[..|earlier|][..|first|];
    assert forall i :: |first| <= i < |earlier| ==> later[i] == later[..|earlier|][i];
  }

  class ReplanStore {
    var files: Files
    /** File operations attempted so far. */
    var operations: nat
    var recovery: RecoveryRow
    var artifactRows: nat
    var events: nat
    /** The file system after every change, for what must hold at every moment. */
    ghost var trace: seq<Files>

    method EnsureDir(f: Faults) returns (ok: bool)
      modifies this`operations
      ensures operations == old(operations) + 1 && ok == !f.fails(old(operations))
    {
      ok := !f.fails(operations);
      operations := operations + 1;
    }

    method CopyFile(f: Faults, source: Path, target: Path) returns (ok: bool)
      modifies this`files, this`operations, this`trace
      ensures ok <==> source in old(files) && !f.fails(old(operations))
      ensures files == if ok then old(files)[target := old(files)[source]]
                       else if f.fails(old(operations)) && f.tears(old(operations)) then old(files)[target := Torn]
                       else old(files)
      ensures trace == old(trace) + [files] && operations == old(operations) + 1
    {
      if f.fails(operations) {
        ok := false;
        if f.tears(operations) { files := files[target := Torn]; }
      } else if source !in files {
        ok := false;
      } else {
        files := files[target := files[source]];
        ok := true;
      }
      operations := operations + 1;
      trace := trace + [files];
    }

    method Rename(f: Faults, source: Path, target: Path) returns (ok: bool)
      requires source in files
      modifies this`files, this`operations, this`trace
      ensures ok == !f.fails(old(operations))
      ensures files == if ok then (old(files) - {source})[target := old(files)[source]] else old(files)
      ensures trace == old(trace) + [files] && operations == old(operations) + 1
    {
      ok := !f.fails(operations);
      operations := operations + 1;
      if ok { files := (files - {source})[target := files[source]]; }
      trace := trace + [files];
    }

    method PathExists(f: Faults, path: Path) returns (exists_: bool)
      ensures exists_ == (path in files && !f.statFails(path))
    {
      exists_ := path in files && !f.statFails(path);
    }

    /** Archive a copy of a plan document. */
    method CopyIfExists(f: Faults, op: nat, kind: ArtifactKind) returns (ok: bool)
      modifies this`files, this`operations, this`trace
      ensures forall p :: p != Archived(op, kind) ==> SameAt(old(files), files, p)
      ensures ok && Active(kind) in old(files) && !f.statFails(Active(kind)) ==>
                Archived(op, kind) in files && files[Archived(op, kind)] == old(files)[Active(kind)]
      ensures f.statFails(Active(kind)) ==> files == old(files)
      ensures ExtendedBy(old(trace), trace) && forall i :: |old(trace)| <= i < |trace| ==> trace[i] == files
      ensures FilesWork(f) ==> ok
    {
      var present := PathExists(f, Active(kind));
      if !present { return true; }
      ok := EnsureDir(f);
      if !ok { return; }
      ok := CopyFile(f, Active(kind), Archived(op, kind));
    }

    /** Move a tree into the archive. */
    method MoveIfExists(f: Faults, op: nat, kind: ArtifactKind) returns (ok: bool, moved: bool)
      modifies this`files, this`operations, this`trace
      ensures moved ==> ok && Active(kind) in old(files) && !f.statFails(Active(kind))
      ensures ok && !moved ==> Active(kind) !in old(files) || f.statFails(Active(kind))
      ensures files == if moved then (old(files) - {Active(kind)})[Archived(op, kind) := old(files)[Active(kind)]] else old(files)
      ensures ExtendedBy(old(trace), trace) && forall i :: |old(trace)| <= i < |trace| ==> trace[i] == files
      ensures FilesWork(f) ==> ok
    {
      moved := false;
      var present := PathExists(f, Active(kind));
      if !present { return true, false; }
      ok := EnsureDir(f);
      if !ok { return; }
      ok := Rename(f, Active(kind), Archived(op, kind));
      moved := ok;
    }

    /** The archiving loop. */
    method ArchiveAll(f: Faults, op: nat, kinds: seq<ArtifactKind>) returns (ok: bool, moved: seq<ArtifactKind>)
      requires ArchiveList(kinds) && FreshArchive(files, op)
      modifies this`files, this`operations, this`trace
      ensures Displaced(old(files), files, op, SetOf(moved))
      ensures OnlyArchiving(old(files), files, op)
      ensures NoDuplicates(moved) && forall k :: k in moved ==> IsTree(k)
      ensures ok ==> SetOf(moved) == Movable(f, old(files), kinds)
      ensures ok ==> DocumentsArchived(f, old(files), files, op)
      ensures f.statFails(Active(PlanningJson)) ==> Archived(op, PlanningJson) !in files
      ensures ExtendedBy(old(trace), trace) && IntactSince(trace, |old(trace)|, old(files), op)
      ensures FilesWork(f) ==> ok
    {
      ok, moved := true, [];
      ghost var before := files;
      assert ExtendedBy(trace, trace) && IntactSince(trace, |trace|, files, op);
      assert kinds[..0] == [] && Copied(f, before, files, op, []);
      hide Copied, DocumentsArchived, ExtendedBy, IntactSince;
      for i := 0 to |kinds|
        invariant ok
        invariant Displaced(before, files, op, SetOf(moved))
        invariant OnlyArchiving(before, files, op)
        invariant NoDuplicates(moved) && forall k :: k in moved ==> IsTree(k) && k in kinds[..i]
        invariant SetOf(moved) == Movable(f, before, kinds[..i])
        invariant Copied(f, before, files, op, kinds[..i])
        invariant f.statFails(Active(PlanningJson)) ==> Archived(op, PlanningJson) !in files
        invariant ExtendedBy(old(trace), trace) && IntactSince(trace, |old(trace)|, before, op)
      {
        var kind := kinds[i];
        assert kinds[..i + 1] == kinds[..i] + [kind] && kind !in kinds[..i];
        ghost var now, earlier := files, trace;
        assert SameAt(before, now, Active(PlanningJson)) && !IsTreePlace(Active(PlanningJson), op);
        assert i > 0 ==> kinds[0] in kinds[..i];
        hide NoDuplicates;
        if !IsTree(kind) {
          ok := CopyIfExists(f, op, kind);
          assert SameAt(now, files, Active(PlanningJson));
          assert kind != PlanningJson ==> SameAt(now, files, Archived(op, PlanningJson));
          CopyKeepsTrees(before, now, files, op, kind, SetOf(moved));
          CopyAddsOne(f, before, now, files, op, kinds[..i], kind, ok);
          ArchivingKeepsThePlan(old(trace), earlier, trace, before, files, op);
          if !ok { return; }
        } else {
          assert TreeIsAt(before, now, op, kind, false);
          var arrived;
          ok, arrived := MoveIfExists(f, op, kind);
          MoveKeepsCopies(f, before, now, files, op, kinds[..i], kind);
          if arrived {
            MoveDisplaces(before, now, op, kind, SetOf(moved));
            SetOfAppend(moved, kind);
            DistinctAppend(moved, kind);
            moved := moved + [kind];
          }
          ArchivingKeepsThePlan(old(trace), earlier, trace, before, files, op);
          if !ok { return; }
        }
      }
      assert kinds[..|kinds|] == kinds;
      AllCopied(f, before, files, op, kinds);
    }

    /** One step of the undo: if the archived tree can be stat'ed, make its old directory and
        move it back. */
    method RestoreTree(f: Faults, op: nat, kind: ArtifactKind, ghost before: Files, ghost away: set<ArtifactKind>)
      returns (ok: bool, ghost back: bool)
      requires IsTree(kind) && kind in away && Displaced(before, files, op, away) && FreshArchive(before, op)
      modifies this`files, this`operations, this`trace
      ensures back <==> ok && !f.statFails(Archived(op, kind))
      ensures ok <==> f.statFails(Archived(op, kind)) || (!f.fails(old(operations)) && !f.fails(old(operations) + 1))
      ensures ok ==> operations == old(operations) + if back then 2 else 0
      ensures old(operations) <= operations <= old(operations) + 2
      ensures Displaced(before, files, op, if back then away - {kind} else away)
      ensures OnlyTreesMoved(old(files), files, op)
      ensures ExtendedBy(old(trace), trace) && forall i :: |old(trace)| <= i < |trace| ==> trace[i] == files
    {
      RestoreReplaces(before, files, op, kind, away);
      var present := PathExists(f, Archived(op, kind));
      if !present { return true, false; }
      back := false;
      ok := EnsureDir(f);
      if !ok { return; }
      ok := Rename(f, Archived(op, kind), Active(kind));
      back := ok;
    }

    /** The undo: back to front over what was moved. It stops at a step that throws and
        passes over one whose archive it cannot stat; `stranded` are the trees left behind. */
    method Undo(f: Faults, op: nat, moved: seq<ArtifactKind>, ghost before: Files)
      returns (ghost stranded: set<ArtifactKind>)
      requires NoDuplicates(moved) && (forall k :: k in moved ==> IsTree(k))
      requires Displaced(before, files, op, SetOf(moved)) && FreshArchive(before, op)
      modifies this`files, this`operations, this`trace
      ensures Displaced(before, files, op, stranded)
      ensures stranded == {} <==> UndoWorks(f, op, moved, old(operations))
      ensures old(operations) <= operations <= old(operations) + 2 * |moved|
      ensures UndoKeeps(old(trace), trace, old(files), files, op)
    {
      stranded := {};
      ghost var start := operations;
      var n := |moved|;
      AwayAtTheEnds(moved, {});
      assert UndoneSoFar(f, op, [], start, start, {});
      hide Displaced, FreshArchive, NoDuplicates, UndoneSoFar, UndoWorks, UndoKeeps, SetOf, AwayWith, OnlyTreesMoved,
           ExtendedBy;
      while n > 0
        decreases n
        invariant 0 <= n <= |moved|
        invariant Displaced(before, files, op, AwayWith(moved, n, stranded))
        invariant UndoneSoFar(f, op, moved[n..], start, operations, stranded)
        invariant UndoKeeps(old(trace), trace, old(files), files, op)
      {
        var kind := moved[n - 1];
        ghost var away, earlier, last, now := AwayWith(moved, n, stranded), trace, files, operations;
        KindIsAway(moved, n, stranded);
        ghost var back;
        var ok;
        ok, back := RestoreTree(f, op, kind, before, away);
        UndoKeepsOn(old(trace), earlier, trace, old(files), last, files, op);
        if !ok {
          StepThrown(f, op, moved, n, start, now, stranded);
          stranded := away;
          return;
        }
        if back {
          StepRestored(f, op, moved, n, start, now, stranded);
        } else {
          StepSkipped(f, op, moved, n, start, now, stranded);
          stranded := stranded + {kind};
        }
        n := n - 1;
      }
      AwayAtTheEnds(moved, stranded);
      UndoneAll(f, op, moved, start, operations, stranded);
    }

    /** Putting the staged plan in place. */
    method InstallPlan(f: Faults, op: nat) returns (ok: bool)
      modifies this`files, this`operations, this`trace
      ensures forall p :: p != Active(PlanningJson) ==> SameAt(old(files), files, p)
      ensures ok ==> Staged(op, PlanningJson) in old(files) && Active(PlanningJson) in files
                     && files[Active(PlanningJson)] == old(files)[Staged(op, PlanningJson)]
      ensures !ok ==> SameAt(old(files), files, Active(PlanningJson))
                      || (Active(PlanningJson) in files && files[Active(PlanningJson)] == Torn)
      ensures ExtendedBy(old(trace), trace) && forall i :: |old(trace)| <= i < |trace| ==> trace[i] == files
      ensures FilesWork(f) && Staged(op, PlanningJson) in old(files) ==> ok
    {
      ok := EnsureDir(f);
      if !ok { return; }
      ok := CopyFile(f, Staged(op, PlanningJson), Active(PlanningJson));
    }

    /** The rendering of the plan and the audit. */
    method InstallDocuments(f: Faults, op: nat) returns (ok: bool)
      modifies this`files, this`operations, this`trace
      ensures forall p :: p != Active(PlanningMarkdown) && !p.Audit? ==> SameAt(old(files), files, p)
      ensures ok ==> Staged(op, PlanningMarkdown) in old(files) && Active(PlanningMarkdown) in files
                     && files[Active(PlanningMarkdown)] == old(files)[Staged(op, PlanningMarkdown)]
      ensures ok ==> forall m :: StagedAudit(op, m) in old(files) && Audit(op, m) in files
                                 && files[Audit(op, m)] == old(files)[StagedAudit(op, m)]
      ensures ExtendedBy(old(trace), trace)
      ensures forall i :: |old(trace)| <= i < |trace| ==>
                SameAt(old(files), trace[i], Active(PlanningJson)) && SameAt(old(files), trace[i], Archived(op, PlanningJson))
      ensures FilesWork(f) && AllStaged(old(files), op) ==> ok
    {
      ok := CopyFile(f, Staged(op, PlanningMarkdown), Active(PlanningMarkdown));
      if !ok { return; }
      ok := CopyFile(f, StagedAudit(op, false), Audit(op, false));
      if !ok { return; }
      ok := CopyFile(f, StagedAudit(op, true), Audit(op, true));
    }

    /** The run row, four artifact rows and the event; earlier steps are not taken back
        when a later one fails. */
    method RecordActivation(f: Faults) returns (ok: bool, ghost steps: nat)
      modifies this`recovery, this`artifactRows, this`events
      ensures steps <= 6 && (steps == 0 <==> f.databaseFails(0)) && (ok <==> steps == 6)
              && (!ok ==> f.databaseFails(steps)) && (ok <==> DatabaseWorks(f))
      ensures if steps >= 1 then WidenedToRun(old(recovery), recovery) else recovery == old(recovery)
      ensures artifactRows == old(artifactRows) + (if steps == 0 then 0 else if steps == 6 then 4 else steps - 1)
      ensures events == old(events) + (if ok then 1 else 0)
    {
      steps := 0;
      if f.databaseFails(0) { return false, 0; }
      recovery := RecoveryAfter(recovery);
      steps := 1;
      for n := 1 to 5
        invariant steps == n && artifactRows == old(artifactRows) + n - 1
        invariant recovery == RecoveryAfter(old(recovery)) && events == old(events)
        invariant forall i :: 0 <= i < n ==> !f.databaseFails(i)
      {
        if f.databaseFails(n) { return false, n; }
        artifactRows := artifactRows + 1;
        steps := n + 1;
      }
      if f.databaseFails(5) { return false, 5; }
      events := events + 1;
      return true, 6;
    }

    /** What both the try block and the whole activation leave of the plan file: the old
        plan until the staged one is copied, possibly a torn file while it is, then the new. */
    ghost predicate PlanFileAt(before: Files, op: nat, phase: Phase)
      reads this`files
    {
      match phase
      case Preparing | Archiving => SameAt(before, files, Active(PlanningJson))
      case InstallingJson =>
        SameAt(before, files, Active(PlanningJson)) || (Active(PlanningJson) in files && files[Active(PlanningJson)] == Torn)
      case _ =>
        && Staged(op, PlanningJson) in before && Active(PlanningJson) in files
        && files[Active(PlanningJson)] == before[Staged(op, PlanningJson)]
    }

    method InstallAll(f: Faults, op: nat, ghost before: Files, ghost away: set<ArtifactKind>)
      returns (ok: bool, ghost phase: Phase)
      requires Displaced(before, files, op, away)
      requires SameAt(before, files, Active(PlanningJson)) && SameStaged(before, files, op)
      modifies this`files, this`operations, this`trace
      ensures ok ==> phase == Database
      ensures !ok ==> phase in {InstallingJson, InstallingRest}
      ensures Displaced(before, files, op, away) && PlanFileAt(before, op, phase)
      ensures SameAt(old(files), files, Archived(op, PlanningJson))
      ensures ExtendedBy(old(trace), trace)
      ensures forall i :: |old(trace)| <= i < |trace| ==> SameAt(old(files), trace[i], Archived(op, PlanningJson))
      ensures FilesWork(f) && AllStaged(old(files), op) ==> ok
      ensures ok ==> DocumentsInstalled(before, files, op)
      ensures forall k :: SameAt(old(files), files, Archived(op, k))
    {
      hide Displaced;
      ghost var archived := files;
      phase := InstallingJson;
      ok := InstallPlan(f, op);
      InstallingKeepsTrees(before, archived, files, op, away);
      if !ok { return; }
      StagedStay(before, archived, files, op);
      phase := InstallingRest;
      archived := files;
      ghost var mid := trace;
      ok := InstallDocuments(f, op);
      assert forall i :: |old(trace)| <= i < |mid| ==> trace[i] == trace[..|mid|][i];
      InstallingKeepsTrees(before, archived, files, op, away);
      assert SameAt(archived, files, Active(PlanningJson));
      if ok { phase := Database; }
    }

    /** The try block. */
    method TryActivate(f: Faults, op: nat, kinds: seq<ArtifactKind>)
      returns (ok: bool, ghost phase: Phase, moved: seq<ArtifactKind>)
      requires ArchiveList(kinds) && FreshArchive(files, op)
      modifies this
      ensures ok <==> phase == Done
      ensures phase != Preparing && PlanFileAt(old(files), op, phase)
      ensures Displaced(old(files), files, op, SetOf(moved))
      ensures NoDuplicates(moved) && forall k :: k in moved ==> IsTree(k)
      ensures ok ==> SetOf(moved) == Movable(f, old(files), kinds)
      ensures if phase in {Database, Done} && !f.databaseFails(0) then WidenedToRun(old(recovery), recovery)
              else recovery == old(recovery) && artifactRows == old(artifactRows)
      ensures ok ==> artifactRows == old(artifactRows) + 4
      ensures events == old(events) + (if ok then 1 else 0)
      ensures f.statFails(Active(PlanningJson)) ==> Archived(op, PlanningJson) !in files
      ensures !f.statFails(Active(PlanningJson)) ==>
                IntactSince(trace, |old(trace)|, old(files), op) && PlanIntact(old(files), files, op)
      ensures ExtendedBy(old(trace), trace)
      ensures FilesWork(f) && AllStaged(old(files), op) ==> phase in {Database, Done}
      ensures phase == Database ==> !DatabaseWorks(f)
      ensures phase == Done ==> DatabaseWorks(f)
      ensures ok ==> DocumentsInstalled(old(files), files, op) && DocumentsArchived(f, old(files), files, op)
    {
      hide Displaced, Movable;
      ghost var before := files;
      phase := Archiving;
      ok, moved := ArchiveAll(f, op, kinds);
      UntouchedByArchiving(before, files, op);
      if ok {
        ok, phase := InstallAll(f, op, before, SetOf(moved));
      }
      if ok {
        ghost var steps;
        ok, steps := RecordActivation(f);
        if ok { phase := Done; }
      }
    }

    /** `activatePreparedReplan`. When it fails
        - the trees moved so far are all back exactly if the undo, from operation `undoFrom`
          on, meets no fault, and in any case no tree is lost: it is at its place or whole in the archive;
        - the active plan is not put back: it is the old one if the failure came before the
          staged plan was copied, the new one if it came after, and may be torn in between;
        - unless the plan file could not be stat'ed, the old plan was readable at the
          active path or in the archive at every moment; if it could not, there is no copy in
          the archive, and the old plan is lost as soon as the active file changes.
        When no file step fails and everything is staged, it succeeds exactly if no database
        step fails. */
    method Activate(f: Faults, op: nat, kinds: seq<ArtifactKind>)
      returns (ok: bool, ghost phase: Phase, moved: seq<ArtifactKind>, ghost stranded: set<ArtifactKind>, ghost undoFrom: nat)
      requires ArchiveList(kinds) && FreshArchive(files, op)
      modifies this
      ensures ok <==> phase == Done
      ensures PlanFileAt(old(files), op, phase)
      ensures ok ==> Displaced(old(files), files, op, Movable(f, old(files), kinds))
      ensures if phase in {Database, Done} && !f.databaseFails(0) then WidenedToRun(old(recovery), recovery)
              else recovery == old(recovery) && artifactRows == old(artifactRows)
      ensures ok ==> artifactRows == old(artifactRows) + 4
      ensures events == old(events) + (if ok then 1 else 0)
      ensures !ok ==> Displaced(old(files), files, op, stranded)
      ensures !ok ==> (stranded == {} <==> UndoWorks(f, op, moved, undoFrom)) && undoFrom <= operations <= undoFrom + 2 * |moved|
      ensures !f.statFails(Active(PlanningJson)) ==> IntactSince(trace, |old(trace)|, old(files), op)
      ensures f.statFails(Active(PlanningJson)) ==> Archived(op, PlanningJson) !in files
      ensures f.statFails(Active(PlanningJson)) && Active(PlanningJson) in old(files) ==>
                (PlanIntact(old(files), files, op) <==> SameAt(old(files), files, Active(PlanningJson)))
      ensures FilesWork(f) && AllStaged(old(files), op) ==> phase in {Database, Done}
      ensures (phase == Done ==> DatabaseWorks(f)) && (phase == Database ==> !DatabaseWorks(f))
      ensures ExtendedBy(old(trace), trace)
      ensures ok ==> DocumentsInstalled(old(files), files, op) && DocumentsArchived(f, old(files), files, op)
    {
      hide Displaced, Movable;
      ghost var before := files;
      phase, moved, stranded := Preparing, [], {};
      ok := EnsureDir(f);
      undoFrom := operations;
      NothingDisplaced(files, op);
      if !ok { return; }
      ok, phase, moved := TryActivate(f, op, kinds);
      if !ok {
        ghost var failed := files;
        undoFrom := operations;
        stranded := Undo(f, op, moved, before);
        UndoLeavesThePlan(failed, files, op);
      }
    }

    method WriteFile(f: Faults, path: Path, content: Content) returns (ok: bool)
      modifies this`files, this`operations, this`trace
      ensures ok ==> files == old(files)[path := content]
      ensures forall p :: p != path ==> SameAt(old(files), files, p)
    {
      ok := !f.fails(operations);
      if ok {
        files := files[path := content];
      } else if f.tears(operations) {
        files := files[path := Torn];
      }
      operations := operations + 1;
      trace := trace + [files];
    }

    /** The list of what to archive: both documents, and the trees that are there. */
    method ListArtifacts(f: Faults) returns (kinds: seq<ArtifactKind>)
      ensures ArchiveList(kinds)
      ensures forall k :: IsTree(k) ==> (k in kinds <==> Active(k) in files && !f.statFails(Active(k)))
    {
      kinds := [PlanningJson, PlanningMarkdown];
      var present := PathExists(f, Active(ExecutionWaves));
      if present { kinds := kinds + [ExecutionWaves]; }
      present := PathExists(f, Active(Handoffs));
      if present { kinds := kinds + [Handoffs]; }
      present := PathExists(f, Active(SupabaseHandoff));
      if present { kinds := kinds + [SupabaseHandoff]; }
    }

    /** The staged documents of `prepareReplanActivation`. */
    method Stage(f: Faults, op: nat, plan: Content, rendered: Content, auditJson: Content, auditText: Content)
      returns (ok: bool)
      modifies this`files, this`operations, this`trace
      ensures ok ==> StagedAre(files, op, plan, rendered, auditJson, auditText)
      ensures OnlyStaged(old(files), files)
    {
      hide OnlyStaged;
      StagedNothing(files);
      ok := WriteFile(f, Staged(op, PlanningJson), plan);
      StagedOnce(old(files), old(files), files, Staged(op, PlanningJson));
      if !ok { return; }
      ghost var last := files;
      ok := WriteFile(f, Staged(op, PlanningMarkdown), rendered);
      StagedOnce(old(files), last, files, Staged(op, PlanningMarkdown));
      if !ok { return; }
      last := files;
      ok := WriteFile(f, StagedAudit(op, false), auditJson);
      StagedOnce(old(files), last, files, StagedAudit(op, false));
      if !ok { return; }
      last := files;
      ok := WriteFile(f, StagedAudit(op, true), auditText);
      StagedOnce(old(files), last, files, StagedAudit(op, true));
    }

    /** `readPersistedPlan`: None when it throws. */
    method ReadPersistedPlan(f: Faults) returns (file: Option<ReplanHistory.PlanFile>)
      modifies this`operations
      ensures file == if f.fails(old(operations)) then None else ActivePlan(files)
    {
      file := if f.fails(operations) then None else ActivePlan(files);
      operations := operations + 1;
    }

    /** `performExplicitReplan`. The generator may throw, and so may the `afterPreparation`
        hook. Whatever fails, a plan file that reads back is chained: it is the old plan, or
        the one revision after it with the record of this replan. */
    method PerformExplicitReplan(f: Faults, op: nat,
                                 generatePlan: ReplanHistory.PersistedPlan -> Option<ReplanHistory.Plan>,
                                 hookThrows: bool, reason: string, now: int, rendered: Content, auditJson: Content, auditText: Content)
      returns (ok: bool)
      requires FreshArchive(files, op) && ChainedFile(files)
      modifies this
      ensures ChainedFile(files)
      ensures ok ==> !hookThrows && NextActive(old(files), generatePlan, reason, now).Some?
                     && ActivePlan(files) == NextActive(old(files), generatePlan, reason, now)
      ensures !ok && ActivePlan(files).Some? ==>
                || ActivePlan(files) == ActivePlan(old(files))
                || (!hookThrows && ActivePlan(files) == NextActive(old(files), generatePlan, reason, now))
      ensures NextActive(old(files), generatePlan, reason, now).None? ==> !ok && files == old(files)
      ensures hookThrows ==> !ok && OnlyStaged(old(files), files)
      ensures hookThrows || NextActive(old(files), generatePlan, reason, now).None? ==>
                recovery == old(recovery) && artifactRows == old(artifactRows)
      ensures ok ==> WidenedToRun(old(recovery), recovery) && artifactRows == old(artifactRows) + 4
      ensures (recovery == old(recovery) && artifactRows == old(artifactRows))
              || (WidenedToRun(old(recovery), recovery) && !f.databaseFails(0)
                  && ActivePlan(files) == NextActive(old(files), generatePlan, reason, now))
      ensures ok ==> Written(files, op, rendered, auditJson, auditText) && DocumentsArchived(f, old(files), files, op)
      ensures ok ==> forall k :: IsTree(k) ==>
                TreeIsAt(old(files), files, op, k, Active(k) in old(files) && !f.statFails(Active(k)))
      ensures events == old(events) + (if ok then 1 else 0)
    {
      hide FreshArchive, Displaced, IntactSince, ExtendedBy, ArchiveList, OnlyStaged, ReplanHistory.Chained,
           ReplanHistory.AllNamespaced;
      StagedNothing(files);
      var read := ReadPersistedPlan(f);
      if read.None? { return false; }
      var file := read.value;
      var current := ReplanHistory.Loaded(file, now);
      var generated := generatePlan(current);
      if generated.None? { return false; }
      var request := ReplanHistory.Request(generated.value, reason, now);
      var version: int := current.active.version + 1;
      NextIsChained(file, request);
      var renamed, summary := ReplanHistory.NamespaceReplacementPlan(request.replacement, version, now);
      var record := ReplanHistory.RegenerationRecord(reason, current.active, summary);
      var next := ReplanHistory.Saved(ReplanHistory.PersistedPlan(renamed, summary, current.history + [record]));
      ghost var before := files;
      var kinds := ListArtifacts(f);
      ok := Stage(f, op, PlanJson(next), rendered, auditJson, auditText);
      StillFresh(before, files, op);
      if !ok { return; }
      if hookThrows { return false; }
      ghost var staged := files;
      ghost var phase, stranded, undoFrom;
      var moved;
      ok, phase, moved, stranded, undoFrom := Activate(f, op, kinds);
      if ok { ReplanLeaves(f, before, staged, files, op, kinds, PlanJson(next), rendered, auditJson, auditText); }
    }
  }

  /** The active plan a replan that succeeds leaves; None when there is nothing to replan or
      the generator throws. */
  function NextActive(files: Files, generatePlan: ReplanHistory.PersistedPlan -> Option<ReplanHistory.Plan>,
                      reason: string, now: int): Option<ReplanHistory.PlanFile>
  {
    var active := ActivePlan(files);
    if active.None? then None
    else
      var generated := generatePlan(ReplanHistory.Loaded(active.value, now));
      if generated.None? then None else Some(NextFile(active.value, ReplanHistory.Request(generated.value, reason, now)))
  }

  /** The active plan, if the file is there and reads back. */
  function ActivePlan(files: Files): Option<ReplanHistory.PlanFile> {
    if Active(PlanningJson) in files && files[Active(PlanningJson)].PlanJson? then Some(files[Active(PlanningJson)].file) else None
  }

  ghost predicate ChainedPlan(file: ReplanHistory.PlanFile) {
    forall now :: ReplanHistory.Chained(ReplanHistory.Loaded(file, now)) && ReplanHistory.AllNamespaced(ReplanHistory.Loaded(file, now))
  }

  ghost predicate ChainedFile(files: Files) {
    ActivePlan(files).Some? ==> ChainedPlan(ActivePlan(files).value)
  }

  /** The plan file a successful replan leaves. */
  function NextFile(file: ReplanHistory.PlanFile, request: ReplanHistory.Request): ReplanHistory.PlanFile {
    var current := ReplanHistory.Loaded(file, request.now);
    if current.active.version < 0 then file
    else ReplanHistory.Saved(ReplanHistory.Replanned(current, request.replacement, request.reason, request.now))
  }

  lemma {:induction false} NextIsChained(file: ReplanHistory.PlanFile, request: ReplanHistory.Request)
    requires ChainedPlan(file)
    ensures ReplanHistory.Loaded(file, request.now).active.version >= 1
    ensures ChainedPlan(NextFile(file, request))
  {
    var current := ReplanHistory.Loaded(file, request.now);
    ReplanHistory.ReplanKeepsChain(current, request.replacement, request.reason, request.now);
    var next := ReplanHistory.Replanned(current, request.replacement, request.reason, request.now);
    forall now ensures ReplanHistory.Loaded(NextFile(file, request), now) == next {
      ReplanHistory.SavedLoadsBack(next, now);
    }
  }

  ghost predicate OnlyStaged(before: Files, now: Files) {
    forall p: Path :: !p.Staged? && !p.StagedAudit? ==> SameAt(before, now, p)
  }

  lemma {:induction false} StagedNothing(files: Files)
    ensures OnlyStaged(files, files)
  {
  }

  lemma {:induction false} StagedOnce(a: Files, b: Files, c: Files, path: Path)
    requires OnlyStaged(a, b) && (path.Staged? || path.StagedAudit?)
    requires forall p :: p != path ==> SameAt(b, c, p)
    ensures OnlyStaged(a, c)
  {
    forall p: Path | !p.Staged? && !p.StagedAudit? ensures SameAt(a, c, p) {
      assert SameAt(a, b, p) && SameAt(b, c, p);
    }
  }

  /** The rendering of the plan and both forms of the audit are in place. */
  predicate Written(files: Files, op: nat, rendered: Content, auditJson: Content, auditText: Content) {
    && Active(PlanningMarkdown) in files && files[Active(PlanningMarkdown)] == rendered
    && Audit(op, false) in files && files[Audit(op, false)] == auditJson
    && Audit(op, true) in files && files[Audit(op, true)] == auditText
  }

  /** What an activation leaves, seen from before the documents were staged. */
  lemma {:induction false} ReplanLeaves(f: Faults, before: Files, staged: Files, now: Files, op: nat,
                                        kinds: seq<ArtifactKind>, plan: Content, rendered: Content, auditJson: Content, auditText: Content)
    requires OnlyStaged(before, staged) && StagedAre(staged, op, plan, rendered, auditJson, auditText)
    requires DocumentsInstalled(staged, now, op) && DocumentsArchived(f, staged, now, op)
    requires Displaced(staged, now, op, Movable(f, staged, kinds))
    requires forall k :: IsTree(k) ==> (k in kinds <==> Active(k) in before && !f.statFails(Active(k)))
    ensures Written(now, op, rendered, auditJson, auditText) && DocumentsArchived(f, before, now, op)
    ensures forall k :: IsTree(k) ==> TreeIsAt(before, now, op, k, Active(k) in before && !f.statFails(Active(k)))
  {
    forall k ensures SameAt(before, staged, Active(k)) && SameAt(before, staged, Archived(op, k)) {
    }
    forall k | IsTree(k) ensures TreeIsAt(before, now, op, k, Active(k) in before && !f.statFails(Active(k))) {
      assert TreeIsAt(staged, now, op, k, k in Movable(f, staged, kinds));
      assert SameAt(before, staged, Active(k)) && SameAt(before, staged, Archived(op, k));
    }
  }

  lemma {:induction false} StillFresh(before: Files, now: Files, op: nat)
    requires FreshArchive(before, op)
    requires OnlyStaged(before, now)
    ensures FreshArchive(now, op) && SameAt(before, now, Active(PlanningJson))
  {
    forall k ensures Archived(op, k) !in now {
      assert SameAt(before, now, Archived(op, k));
    }
  }

  /** An activation of which only the first database step fails reports a failure and leaves
      the new plan in place. */
  method FailureKeepsTheNewPlan(previous: Content, next: Content, other: Content) returns (ok: bool, left: Files)
    ensures !ok && Active(PlanningJson) in left && left[Active(PlanningJson)] == next
  {
    var store := new ReplanStore;
    store.files := map[Active(PlanningJson) := previous, Staged(0, PlanningJson) := next, Staged(0, PlanningMarkdown) := other,
                       StagedAudit(0, false) := other, StagedAudit(0, true) := other];
    var f := Faults(_ => false, _ => false, _ => false, n => n == 0);
    ghost var before := store.files;
    assert f.databaseFails(0);
    assert AllStaged(before, 0) && FilesWork(f) && !DatabaseWorks(f);
    ghost var phase, stranded, undoFrom;
    var moved;
    ok, phase, moved, stranded, undoFrom := store.Activate(f, 0, [PlanningJson, PlanningMarkdown]);
    left := store.files;
    assert before[Staged(0, PlanningJson)] == next;
  }

  lemma {:induction false} UntouchedByArchiving(before: Files, now: Files, op: nat)
    requires OnlyArchiving(before, now, op)
    ensures SameAt(before, now, Active(PlanningJson)) && SameStaged(before, now, op)
  {
    assert !IsTreePlace(Active(PlanningJson), op) && !IsTreePlace(Staged(op, PlanningJson), op);
    assert SameAt(before, now, Staged(op, PlanningMarkdown));
    assert SameAt(before, now, StagedAudit(op, false)) && SameAt(before, now, StagedAudit(op, true));
  }

  lemma {:induction false} StagedStay(before: Files, now: Files, next: Files, op: nat)
    requires SameStaged(before, now, op)
    requires forall p: Path :: p != Active(PlanningJson) ==> SameAt(now, next, p)
    ensures SameStaged(before, next, op)
  {
    assert SameAt(now, next, Staged(op, PlanningJson)) && SameAt(now, next, Staged(op, PlanningMarkdown));
    assert SameAt(now, next, StagedAudit(op, false)) && SameAt(now, next, StagedAudit(op, true));
  }

  lemma {:induction false} UndoLeavesThePlan(before: Files, now: Files, op: nat)
    requires OnlyTreesMoved(before, now, op)
    ensures SameAt(before, now, Active(PlanningJson)) && SameAt(before, now, Archived(op, PlanningJson))
  {
    assert !IsTreePlace(Active(PlanningJson), op) && !IsTreePlace(Archived(op, PlanningJson), op);
  }

  lemma {:induction false} NothingDisplaced(files: Files, op: nat)
    ensures Displaced(files, files, op, {})
  {
  }

  lemma {:induction false} InstallingKeepsTrees(before: Files, now: Files, next: Files, op: nat,
                                                away: set<ArtifactKind>)
    requires Displaced(before, now, op, away)
    requires forall p: Path :: !(p.Active? && !IsTree(p.kind)) && !p.Audit? ==> SameAt(now, next, p)
    ensures Displaced(before, next, op, away)
  {
    forall k | IsTree(k) ensures TreeIsAt(before, next, op, k, k in away) {
      assert TreeIsAt(before, now, op, k, k in away);
      assert SameAt(now, next, Active(k)) && SameAt(now, next, Archived(op, k));
    }
  }
}
