/** Model of orphan recovery (`orphanRecovery.ts`): the scan that fails runs whose worker is
    gone, the projection of those failures onto the board items, and the startup pass that
    resumes or holds back the stale runs.

    The scan changes the very table its projection step asks about, so whether an item is
    projected depends on how far the scan has come. The theorems say what that amounts to
    once the scan is over. */
module OrphanRecovery {
  import opened Outcomes
  import opened Ordering

  /** Row ids are opaque: they are only ever compared. */
  datatype RunId = RunId(key: int)
  datatype ItemId = ItemId(key: int)

  datatype RunStatus = Queued | Running | Completed | Failed | Blocked
  datatype Owner = Api | Cli
  datatype RecoveryStatus = RecoveryBlocked | RecoveryFailed
  datatype ScopeKind = RunScope | StageScope | StoryScope

  datatype Summary =
    | ApiOwnershipLost | CliHeartbeatStale | GracefulShutdown | WorkerOwnershipLost
    | HeartbeatFailures(count: nat)
    | OtherSummary(text: string)

  datatype RunRow = RunRow(
    itemId: ItemId,
    status: RunStatus,
    currentStage: Option<string>,
    owner: Owner,
    workerOwnerKind: Option<Owner>,
    workerInstanceId: Option<string>,
    workerHeartbeatAt: Option<int>,
    createdAt: int,
    recoveryStatus: Option<RecoveryStatus>,
    recoveryScope: Option<ScopeKind>,
    recoveryScopeRef: Option<string>,
    recoverySummary: Option<Summary>)

  datatype Item = Item(column: string, phaseStatus: string, currentStage: Option<string>)

  /** The tables, and the items projected so far, in order. */
  datatype Store = Store(runs: map<RunId, RunRow>, items: map<ItemId, Item>, projections: seq<ItemId>)

  /** What the process knows: its worker id, the time, and the board's stage-to-column map. */
  datatype Host = Host(apiWorkerInstanceId: string, now: int, failedColumnOf: string -> string)

  const STALE_WORKER_HEARTBEAT_MS := 120_000

  // ---------- one run ----------

  predicate IsLive(row: RunRow) { row.status == Running || row.status == Blocked }

  predicate HasOrphanedLease(host: Host, row: RunRow) {
    var owner := if row.workerOwnerKind.Some? then row.workerOwnerKind.value else row.owner;
    if owner == Api then row.workerInstanceId != Some(host.apiWorkerInstanceId)
    else row.workerHeartbeatAt.None? || host.now - row.workerHeartbeatAt.value > STALE_WORKER_HEARTBEAT_MS
  }

  predicate ShouldRecover(host: Host, row: RunRow) {
    row.status == Running && HasOrphanedLease(host, row)
  }

  function RecoverySummaryOf(row: RunRow): Summary {
    var owner := if row.workerOwnerKind.Some? then row.workerOwnerKind.value else row.owner;
    if owner == Api then ApiOwnershipLost else CliHeartbeatStale
  }

  function FailedRow(row: RunRow, summary: Summary): RunRow {
    row.(status := Failed, recoveryStatus := Some(RecoveryFailed), recoveryScope := Some(RunScope),
         recoveryScopeRef := None, recoverySummary := Some(summary))
  }

  /** Some run of the item other than `except` is running or blocked. */
  predicate HasOtherLiveRun(runs: map<RunId, RunRow>, item: ItemId, except: RunId) {
    exists id :: id in runs && id != except && runs[id].itemId == item && IsLive(runs[id])
  }

  function ProjectedItem(host: Host, item: Item, stage: Option<string>): Item {
    Item(if stage.Some? && stage.value != "" then host.failedColumnOf(stage.value) else item.column, "failed", None)
  }

  function Projected(host: Host, s: Store, id: RunId, row: RunRow): Store {
    if HasOtherLiveRun(s.runs, row.itemId, id) || row.itemId !in s.items then s
    else s.(items := s.items[row.itemId := ProjectedItem(host, s.items[row.itemId], row.currentStage)],
            projections := s.projections + [row.itemId])
  }

  function MarkedFailed(host: Host, s: Store, id: RunId, summary: Summary): Store {
    if id !in s.runs then s
    else Projected(host, s.(runs := s.runs[id := FailedRow(s.runs[id], summary)]), id, s.runs[id])
  }

  // ---------- the scan ----------

  /** `listRunningRuns()`: every running run once. */
  ghost predicate ListsRunning(listing: seq<RunId>, runs: map<RunId, RunRow>) {
    && NoDuplicates(listing)
    && forall id :: id in listing <==> id in runs && runs[id].status == Running
  }

  /** The listed runs the scan recovers, in scan order. */
  function RecoveredIds(host: Host, runs: map<RunId, RunRow>, listing: seq<RunId>): seq<RunId> {
    if listing == [] then []
    else (if listing[0] in runs && ShouldRecover(host, runs[listing[0]]) then [listing[0]] else [])
         + RecoveredIds(host, runs, listing[1..])
  }

  function Scanned(host: Host, s: Store, ids: seq<RunId>): Store
    decreases |ids|
  {
    if ids == [] then s
    else Scanned(host, if ids[0] in s.runs then MarkedFailed(host, s, ids[0], RecoverySummaryOf(s.runs[ids[0]])) else s, ids[1..])
  }

  function Scan(host: Host, s: Store, listing: seq<RunId>): Store {
    Scanned(host, s, RecoveredIds(host, s.runs, listing))
  }

  /** The last of `ids` that belongs to the item. */
  function LastOf(runs: map<RunId, RunRow>, ids: seq<RunId>, item: ItemId): Option<RunId> {
    if ids == [] then None
    else if LastOf(runs, ids[1..], item).Some? then LastOf(runs, ids[1..], item)
    else if ids[0] in runs && runs[ids[0]].itemId == item then Some(ids[0])
    else None
  }

  /** A run of the item that is live and not among `ids`. */
  predicate LiveBeyond(runs: map<RunId, RunRow>, ids: seq<RunId>, item: ItemId) {
    exists id :: id in runs && id !in ids && runs[id].itemId == item && IsLive(runs[id])
  }

  lemma {:induction false} RecoveredMembers(host: Host, runs: map<RunId, RunRow>, listing: seq<RunId>)
    ensures forall id :: id in RecoveredIds(host, runs, listing) <==> id in listing && id in runs && ShouldRecover(host, runs[id])
    ensures NoDuplicates(listing) ==> NoDuplicates(RecoveredIds(host, runs, listing))
  {
    if listing != [] {
      RecoveredMembers(host, runs, listing[1..]);
    }
  }

  ghost predicate AllRunning(runs: map<RunId, RunRow>, ids: seq<RunId>) {
    forall id :: id in ids ==> id in runs && runs[id].status == Running
  }

  /** The run table after the scan: recovered runs are failed with a run-level recovery,
      every other row is as it was. */
  lemma {:induction false} ScannedRuns(host: Host, s: Store, ids: seq<RunId>)
    requires NoDuplicates(ids) && AllRunning(s.runs, ids)
    ensures var t := Scanned(host, s, ids);
            && t.runs.Keys == s.runs.Keys && t.items.Keys == s.items.Keys
            && forall id :: id in s.runs ==>
                              t.runs[id] == if id in ids then FailedRow(s.runs[id], RecoverySummaryOf(s.runs[id])) else s.runs[id]
    decreases |ids|
  {
    if ids != [] {
      var s1 := MarkedFailed(host, s, ids[0], RecoverySummaryOf(s.runs[ids[0]]));
      assert ids[0] !in ids[1..];
      ScannedRuns(host, s1, ids[1..]);
    }
  }

  lemma {:induction false} MarkingKeepsOtherRows(host: Host, s: Store, id: RunId, summary: Summary)
    ensures var t := MarkedFailed(host, s, id, summary);
            t.runs.Keys == s.runs.Keys && forall other :: other in s.runs && other != id ==> t.runs[other] == s.runs[other]
  {
  }

  /** The scan before its i-th listed run: what is recovered so far and what the rest of the
      listing still gives are the whole scan, and the rows ahead are as they were. */
  ghost predicate OnTrack(host: Host, before: Store, listing: seq<RunId>, i: nat, now: Store, recovered: seq<RunId>) {
    && i <= |listing|
    && RecoveredIds(host, before.runs, listing) == recovered + RecoveredIds(host, before.runs, listing[i..])
    && Scan(host, before, listing) == Scanned(host, now, RecoveredIds(host, before.runs, listing[i..]))
    && (forall j :: i <= j < |listing| ==>
          listing[j] in before.runs && listing[j] in now.runs && now.runs[listing[j]] == before.runs[listing[j]])
  }

  lemma {:induction false} ScanStarts(host: Host, s: Store, listing: seq<RunId>)
    requires ListsRunning(listing, s.runs)
    ensures OnTrack(host, s, listing, 0, s, [])
  {
    hide RecoveredIds, Scanned;
    assert listing[0..] == listing && [] + RecoveredIds(host, s.runs, listing) == RecoveredIds(host, s.runs, listing);
    forall j | 0 <= j < |listing| ensures listing[j] in s.runs {
      assert listing[j] in listing;
    }
  }

  lemma {:induction false} RecoveredStep(host: Host, runs: map<RunId, RunRow>, listing: seq<RunId>, i: nat)
    requires i < |listing| && listing[i] in runs
    ensures var rest := RecoveredIds(host, runs, listing[i + 1..]);
            RecoveredIds(host, runs, listing[i..]) == if ShouldRecover(host, runs[listing[i]]) then [listing[i]] + rest else rest
  {
    assert listing[i..][0] == listing[i] && listing[i..][1..] == listing[i + 1..];
    hide ShouldRecover;
  }

  lemma {:induction false} ScannedStep(host: Host, s: Store, id: RunId, rest: seq<RunId>)
    requires id in s.runs
    ensures Scanned(host, s, [id] + rest)
            == Scanned(host, MarkedFailed(host, s, id, RecoverySummaryOf(s.runs[id])), rest)
  {
    assert ([id] + rest)[1..] == rest;
    hide MarkedFailed, RecoverySummaryOf;
  }

  lemma {:induction false} ScanContinues(host: Host, before: Store, listing: seq<RunId>, i: nat, now: Store,
                                         recovered: seq<RunId>)
    requires OnTrack(host, before, listing, i, now, recovered) && i < |listing| && ListsRunning(listing, before.runs)
    ensures var id := listing[i];
            && id in before.runs && id in now.runs
            && if ShouldRecover(host, before.runs[id])
               then OnTrack(host, before, listing, i + 1, MarkedFailed(host, now, id, RecoverySummaryOf(before.runs[id])), recovered + [id])
               else OnTrack(host, before, listing, i + 1, now, recovered)
  {
    var id, rest := listing[i], RecoveredIds(host, before.runs, listing[i + 1..]);
    RecoveredStep(host, before.runs, listing, i);
    if ShouldRecover(host, before.runs[id]) {
      ScannedStep(host, now, id, rest);
      MarkingKeepsOtherRows(host, now, id, RecoverySummaryOf(before.runs[id]));
      assert recovered + ([id] + rest) == recovered + [id] + rest;
    }
    hide MarkedFailed, ShouldRecover, RecoverySummaryOf, Scan, Scanned, RecoveredIds;
  }

  lemma {:induction false} ScanIsDone(host: Host, before: Store, listing: seq<RunId>, now: Store, recovered: seq<RunId>)
    requires OnTrack(host, before, listing, |listing|, now, recovered)
    ensures now == Scan(host, before, listing) && recovered == RecoveredIds(host, before.runs, listing)
  {
    assert listing[|listing|..] == [];
    hide Scan;
  }

  lemma {:induction false} LastOfSame(a: map<RunId, RunRow>, b: map<RunId, RunRow>, ids: seq<RunId>, item: ItemId)
    requires forall id :: id in ids ==> id in a && id in b && a[id] == b[id]
    ensures LastOf(a, ids, item) == LastOf(b, ids, item)
  {
    if ids != [] {
      LastOfSame(a, b, ids[1..], item);
    }
  }

  lemma {:induction false} LastOfMember(runs: map<RunId, RunRow>, ids: seq<RunId>, item: ItemId)
    ensures LastOf(runs, ids, item).Some? ==>
              LastOf(runs, ids, item).value in ids && LastOf(runs, ids, item).value in runs
              && runs[LastOf(runs, ids, item).value].itemId == item
    ensures LastOf(runs, ids, item).None? ==> forall id :: id in ids && id in runs ==> runs[id].itemId != item
  {
    if ids != [] {
      LastOfMember(runs, ids[1..], item);
    }
  }

  /** What the scan does to one item: projected once by its last recovered run if no run
      of it is live any more, untouched otherwise. */
  ghost predicate ItemSettled(host: Host, s: Store, ids: seq<RunId>, t: Store, item: ItemId) {
    && item in s.items && item in t.items
    && var last := LastOf(s.runs, ids, item);
    if last.Some? && !LiveBeyond(s.runs, ids, item) then
      && (last.value in s.runs)
      && t.items[item] == ProjectedItem(host, s.items[item], s.runs[last.value].currentStage)
      && multiset(t.projections)[item] == multiset(s.projections)[item] + 1
    else
      t.items[item] == s.items[item] && multiset(t.projections)[item] == multiset(s.projections)[item]
  }

  /** The first step of the scan, seen from one item: it projects exactly when the rest of
      the scan has nothing more to say about the item and nothing of it stays live. */
  lemma {:induction false} ScanStep(host: Host, s: Store, ids: seq<RunId>, item: ItemId)
    requires ids != [] && NoDuplicates(ids) && AllRunning(s.runs, ids) && item in s.items
    ensures var row := s.runs[ids[0]];
            var s1 := MarkedFailed(host, s, ids[0], RecoverySummaryOf(row));
            && AllRunning(s1.runs, ids[1..]) && item in s1.items
            && LastOf(s1.runs, ids[1..], item) == LastOf(s.runs, ids[1..], item)
            && (LiveBeyond(s1.runs, ids[1..], item) <==> LiveBeyond(s.runs, ids, item))
            && (if row.itemId == item && LastOf(s.runs, ids[1..], item).None? && !LiveBeyond(s.runs, ids, item) then
                  && s1.items[item] == ProjectedItem(host, s.items[item], row.currentStage)
                  && s1.projections == s.projections + [item]
                else
                  && s1.items[item] == s.items[item]
                  && multiset(s1.projections)[item] == multiset(s.projections)[item])
  {
    var head, rest := ids[0], ids[1..];
    var row := s.runs[head];
    var marked := s.runs[head := FailedRow(row, RecoverySummaryOf(row))];
    assert head !in rest;
    LastOfSame(s.runs, marked, rest, item);
    LastOfMember(s.runs, rest, item);
    assert LiveBeyond(marked, rest, item) <==> LiveBeyond(s.runs, ids, item) by {
      forall id ensures id in marked && id !in rest && marked[id].itemId == item && IsLive(marked[id])
                   <==> id in s.runs && id !in ids && s.runs[id].itemId == item && IsLive(s.runs[id]) {
      }
    }
    if row.itemId == item {
      OthersLive(s.runs, marked, ids, item);
    }
  }

  /** Just after the head of the scan is marked, its item has another live run exactly if
      the scan will come back to the item or something of it stays live. */
  lemma {:induction false} OthersLive(runs: map<RunId, RunRow>, marked: map<RunId, RunRow>, ids: seq<RunId>,
                                      item: ItemId)
    requires ids != [] && NoDuplicates(ids) && AllRunning(runs, ids) && runs[ids[0]].itemId == item
    requires marked.Keys == runs.Keys && forall id :: id in runs && id != ids[0] ==> marked[id] == runs[id]
    ensures HasOtherLiveRun(marked, item, ids[0]) <==> LastOf(runs, ids[1..], item).Some? || LiveBeyond(runs, ids, item)
  {
    LastOfMember(runs, ids[1..], item);
    if LastOf(runs, ids[1..], item).Some? {
      var next := LastOf(runs, ids[1..], item).value;
      assert next in runs && next != ids[0] && IsLive(marked[next]);
    }
    if LiveBeyond(runs, ids, item) {
      var id :| id in runs && id !in ids && runs[id].itemId == item && IsLive(runs[id]);
      assert id in marked && id != ids[0] && IsLive(marked[id]);
    }
    if HasOtherLiveRun(marked, item, ids[0]) {
      var id :| id in marked && id != ids[0] && marked[id].itemId == item && IsLive(marked[id]);
      assert id in ids ==> id in ids[1..];
    }
  }

  lemma {:induction false} ScannedItems(host: Host, s: Store, ids: seq<RunId>, item: ItemId)
    requires NoDuplicates(ids) && AllRunning(s.runs, ids) && item in s.items
    ensures ItemSettled(host, s, ids, Scanned(host, s, ids), item)
    decreases |ids|
  {
    if ids != [] {
      var s1 := MarkedFailed(host, s, ids[0], RecoverySummaryOf(s.runs[ids[0]]));
      ScanStep(host, s, ids, item);
      ScannedItems(host, s1, ids[1..], item);
      LastOfMember(s.runs, ids[1..], item);
    }
  }

  /** Some run of the item is running or blocked. */
  predicate HasLiveRun(runs: map<RunId, RunRow>, item: ItemId) {
    exists id :: id in runs && runs[id].itemId == item && (runs[id].status == Running || runs[id].status == Blocked)
  }

  /** Who works on the run: the worker that claimed it, else its owner. */
  function WorkerOf(row: RunRow): Owner {
    match row.workerOwnerKind
    case Some(kind) => kind
    case None => row.owner
  }

  /** Nobody works on the run any more: an API worker of another process, or a CLI worker
      not heard of for more than two minutes. */
  ghost predicate LostItsWorker(host: Host, row: RunRow) {
    match WorkerOf(row)
    case Api => row.workerInstanceId.None? || row.workerInstanceId.value != host.apiWorkerInstanceId
    case Cli => row.workerHeartbeatAt.None? || row.workerHeartbeatAt.value + 120_000 < host.now
  }

  /** The row after a recovery: failed, recoverable as a whole, for the worker's reason, and
      otherwise as it was. */
  ghost predicate FailedFor(before: RunRow, after: RunRow) {
    && after.status == Failed
    && after.recoveryStatus == Some(RecoveryFailed) && after.recoveryScope == Some(RunScope) && after.recoveryScopeRef == None
    && after.recoverySummary == Some(if WorkerOf(before) == Api then ApiOwnershipLost else CliHeartbeatStale)
    && after.itemId == before.itemId && after.currentStage == before.currentStage && after.owner == before.owner
    && after.workerOwnerKind == before.workerOwnerKind && after.workerInstanceId == before.workerInstanceId
    && after.workerHeartbeatAt == before.workerHeartbeatAt && after.createdAt == before.createdAt
  }

  /** The scan. Afterwards no running run has lost its worker; exactly those that had were
      failed, with a run-level recovery, and no other row changed. */
  lemma {:induction false} ScanFailsExactlyTheOrphans(host: Host, s: Store, listing: seq<RunId>)
    requires ListsRunning(listing, s.runs)
    ensures var t := Scan(host, s, listing);
            && t.runs.Keys == s.runs.Keys
            && (forall id :: id in t.runs ==> !(t.runs[id].status == Running && LostItsWorker(host, t.runs[id])))
            && (forall id :: id in s.runs ==>
                               if s.runs[id].status == Running && LostItsWorker(host, s.runs[id])
                               then FailedFor(s.runs[id], t.runs[id]) else t.runs[id] == s.runs[id])
  {
    RecoveredMembers(host, s.runs, listing);
    ScannedRuns(host, s, RecoveredIds(host, s.runs, listing));
  }

  ghost predicate IsOrphanOf(host: Host, runs: map<RunId, RunRow>, id: RunId, item: ItemId) {
    id in runs && runs[id].itemId == item && runs[id].status == Running && LostItsWorker(host, runs[id])
  }

  /** The k-th listed run is an orphan of the item, and no later one is. */
  ghost predicate IsLastOrphan(host: Host, runs: map<RunId, RunRow>, listing: seq<RunId>, item: ItemId, k: nat)
    requires k < |listing|
  {
    IsOrphanOf(host, runs, listing[k], item) && forall j :: k < j < |listing| ==> !IsOrphanOf(host, runs, listing[j], item)
  }

  lemma {:induction false} OrphansAreRecovered(host: Host, row: RunRow)
    ensures ShouldRecover(host, row) <==> row.status == Running && LostItsWorker(host, row)
  {
  }

  lemma {:induction false} LastRecovered(host: Host, runs: map<RunId, RunRow>, listing: seq<RunId>, item: ItemId)
    ensures var last := LastOf(runs, RecoveredIds(host, runs, listing), item);
            && (last.None? <==> forall j :: 0 <= j < |listing| ==> !IsOrphanOf(host, runs, listing[j], item))
            && (forall k: nat :: k < |listing| && IsLastOrphan(host, runs, listing, item, k) ==> last == Some(listing[k]))
  {
    if listing != [] {
      var rest := listing[1..];
      LastRecovered(host, runs, rest, item);
      if listing[0] in runs {
        OrphansAreRecovered(host, runs[listing[0]]);
      }
      var ids := RecoveredIds(host, runs, rest);
      var head := if listing[0] in runs && ShouldRecover(host, runs[listing[0]]) then [listing[0]] else [];
      assert RecoveredIds(host, runs, listing) == head + ids;
      LastOfHead(runs, head, ids, item);
      hide ShouldRecover, LostItsWorker, LastOf, RecoveredIds;
      assert forall j :: 0 <= j < |rest| ==> rest[j] == listing[j + 1];
      forall k: nat | k < |listing| && IsLastOrphan(host, runs, listing, item, k)
        ensures LastOf(runs, head + ids, item) == Some(listing[k])
      {
        if k > 0 {
          assert IsLastOrphan(host, runs, rest, item, k - 1);
        } else {
          assert forall j :: 0 <= j < |rest| ==> rest[j] == listing[j + 1] && !IsOrphanOf(host, runs, rest[j], item);
        }
      }
    }
  }

  lemma {:induction false} LastOfHead(runs: map<RunId, RunRow>, head: seq<RunId>, ids: seq<RunId>, item: ItemId)
    requires |head| <= 1
    ensures LastOf(runs, head + ids, item)
            == if LastOf(runs, ids, item).Some? then LastOf(runs, ids, item)
               else if head != [] && head[0] in runs && runs[head[0]].itemId == item then Some(head[0]) else None
  {
    if head == [] {
      assert head + ids == ids;
    } else {
      assert (head + ids)[1..] == ids;
    }
  }

  /** The item after the failure of a run: in phase failed without a current stage, in the
      column for failures of that run's stage, or where it was if the run had none. */
  ghost predicate FailsWith(host: Host, before: Item, after: Item, stage: Option<string>) {
    && after.phaseStatus == "failed" && after.currentStage == None
    && after.column == if stage == None || stage == Some("") then before.column else host.failedColumnOf(stage.value)
  }

  /** The projection. An item that lost a run to the scan and has no live run left is
      projected exactly once, for the last of its orphans in the listing; every other item
      is untouched. */
  lemma {:induction false} ScanProjectsEachDeadItemOnce(host: Host, s: Store, listing: seq<RunId>, item: ItemId)
    requires ListsRunning(listing, s.runs) && item in s.items
    ensures var t := Scan(host, s, listing);
            && item in t.items
            && (HasLiveRun(t.runs, item) || (forall j :: 0 <= j < |listing| ==> !IsOrphanOf(host, s.runs, listing[j], item)) ==>
                  t.items[item] == s.items[item] && multiset(t.projections)[item] == multiset(s.projections)[item])
            && (forall k: nat :: k < |listing| && IsLastOrphan(host, s.runs, listing, item, k) && !HasLiveRun(t.runs, item) ==>
                  && FailsWith(host, s.items[item], t.items[item], s.runs[listing[k]].currentStage)
                  && multiset(t.projections)[item] == multiset(s.projections)[item] + 1)
  {
    var ids := RecoveredIds(host, s.runs, listing);
    var t := Scan(host, s, listing);
    RecoveredMembers(host, s.runs, listing);
    ScannedRuns(host, s, ids);
    ScannedItems(host, s, ids, item);
    LastRecovered(host, s.runs, listing, item);
    LiveOnesAreLeft(s.runs, t.runs, ids, item);
    hide LastOf, RecoveredIds, LostItsWorker, Scan;
  }

  lemma {:induction false} LiveOnesAreLeft(before: map<RunId, RunRow>, after: map<RunId, RunRow>, ids: seq<RunId>,
                                           item: ItemId)
    requires after.Keys == before.Keys
    requires forall id :: id in before ==> after[id] == if id in ids then FailedRow(before[id], RecoverySummaryOf(before[id])) else before[id]
    ensures HasLiveRun(after, item) <==> LiveBeyond(before, ids, item)
  {
    forall id ensures id in after && after[id].itemId == item && (after[id].status == Running || after[id].status == Blocked)
                 <==> id in before && id !in ids && before[id].itemId == item && IsLive(before[id]) {
    }
  }

  // ---------- the startup pass ----------

  datatype SkipReason = OpenPrompt | LeaseNotOrphaned | AutoResumeDisabled

  datatype Eligibility = EligibleRun | Ineligible(reason: SkipReason)

  datatype StartupOutcome =
    | AutoResumed(runId: RunId)
    | ResumeFailed(runId: RunId, error: string)
    | Skipped(runId: RunId, reason: SkipReason)
    | HeldBack(runId: RunId, heldBackRunIds: seq<RunId>)

  datatype Candidate = Candidate(id: RunId, eligibility: Eligibility)

  /** `threshold` is None when absent or not finite. `resume(id)` is the error a resume of
      that run throws, if any; `openPrompt(id)` tells whether a prompt of it is open. */
  datatype AutoResume = AutoResume(
    enabled: bool,
    threshold: Option<real>,
    openPrompt: RunId -> bool,
    resume: RunId -> Option<string>)

  const MAX_SAFE_INTEGER := 9007199254740991

  function NormalizedThreshold(threshold: Option<real>): int {
    match threshold
    case None => MAX_SAFE_INTEGER
    case Some(r) => if r.Floor < 1 then 1 else r.Floor
  }

  function ClassifyEligibility(orphanedLease: bool, autoResumeEnabled: bool): Eligibility {
    if orphanedLease && autoResumeEnabled then EligibleRun
    else if orphanedLease then Ineligible(AutoResumeDisabled)
    else Ineligible(LeaseNotOrphaned)
  }

  predicate IsStaleWorkerRecoverable(row: RunRow) {
    && row.recoveryStatus == Some(RecoveryFailed)
    && row.recoveryScope == Some(RunScope)
    && row.recoverySummary.Some?
    && !row.recoverySummary.value.OtherSummary?
  }

  function StaleIds(runs: map<RunId, RunRow>, listing: seq<RunId>): seq<RunId> {
    if listing == [] then []
    else (if listing[0] in runs && IsStaleWorkerRecoverable(runs[listing[0]]) then [listing[0]] else [])
         + StaleIds(runs, listing[1..])
  }

  function AgeKey(runs: map<RunId, RunRow>): RunId -> int { id => if id in runs then runs[id].createdAt else 0 }

  function CandidateIds(runs: map<RunId, RunRow>, listing: seq<RunId>): seq<RunId> {
    SortBy(StaleIds(runs, listing), AgeKey(runs))
  }

  /** How the pass sees one candidate: the classification, and with a threshold in force an
      open prompt defers a run that would be eligible. */
  function EligibilityOf(host: Host, runs: map<RunId, RunRow>, auto: AutoResume, id: RunId): Eligibility {
    var base := ClassifyEligibility(id in runs && HasOrphanedLease(host, runs[id]), auto.enabled);
    if auto.threshold.Some? && base.EligibleRun? && auto.openPrompt(id) then Ineligible(OpenPrompt) else base
  }

  function Candidates(host: Host, runs: map<RunId, RunRow>, auto: AutoResume, listing: seq<RunId>): seq<Candidate> {
    var ids := CandidateIds(runs, listing);
    seq(|ids|, i requires 0 <= i < |ids| => Candidate(ids[i], EligibilityOf(host, runs, auto, ids[i])))
  }

  function EligibleIds(candidates: seq<Candidate>): seq<RunId> {
    if candidates == [] then []
    else (if candidates[0].eligibility.EligibleRun? then [candidates[0].id] else []) + EligibleIds(candidates[1..])
  }

  function SkippedOutcomes(candidates: seq<Candidate>): seq<StartupOutcome> {
    if candidates == [] then []
    else (if candidates[0].eligibility.EligibleRun? then [] else [Skipped(candidates[0].id, candidates[0].eligibility.reason)])
         + SkippedOutcomes(candidates[1..])
  }

  function OutcomeOf(auto: AutoResume, c: Candidate): StartupOutcome {
    match c.eligibility
    case Ineligible(reason) => Skipped(c.id, reason)
    case EligibleRun =>
      if auto.resume(c.id).None? then AutoResumed(c.id) else ResumeFailed(c.id, auto.resume(c.id).value)
  }

  function OutcomesOf(auto: AutoResume, candidates: seq<Candidate>): seq<StartupOutcome> {
    seq(|candidates|, i requires 0 <= i < |candidates| => OutcomeOf(auto, candidates[i]))
  }

  /** The outcomes recorded and the runs a resume was attempted for, in order. */
  datatype PassResult = PassResult(outcomes: seq<StartupOutcome>, attempts: seq<RunId>)

  function StartupPass(auto: AutoResume, candidates: seq<Candidate>): PassResult {
    var eligible := EligibleIds(candidates);
    if |eligible| > NormalizedThreshold(auto.threshold) then
      PassResult([HeldBack(eligible[0], eligible)] + SkippedOutcomes(candidates), [])
    else PassResult(OutcomesOf(auto, candidates), eligible)
  }

  /** The runs an outcome speaks for. */
  function AccountsFor(outcome: StartupOutcome): seq<RunId> {
    match outcome
    case HeldBack(_, ids) => ids
    case _ => [outcome.runId]
  }

  function Accounted(outcomes: seq<StartupOutcome>): seq<RunId> {
    if outcomes == [] then [] else AccountsFor(outcomes[0]) + Accounted(outcomes[1..])
  }

  function IdsOf(candidates: seq<Candidate>): seq<RunId> {
    seq(|candidates|, i requires 0 <= i < |candidates| => candidates[i].id)
  }

  function IneligibleIds(candidates: seq<Candidate>): seq<RunId> {
    if candidates == [] then []
    else (if candidates[0].eligibility.EligibleRun? then [] else [candidates[0].id]) + IneligibleIds(candidates[1..])
  }

  lemma {:induction false} SkippedAccount(candidates: seq<Candidate>)
    ensures Accounted(SkippedOutcomes(candidates)) == IneligibleIds(candidates)
  {
    if candidates != [] {
      SkippedAccount(candidates[1..]);
      var rest := SkippedOutcomes(candidates[1..]);
      if candidates[0].eligibility.Ineligible? {
        assert SkippedOutcomes(candidates)[1..] == rest;
      } else {
        assert SkippedOutcomes(candidates) == rest;
      }
    }
  }

  lemma {:induction false} EligibleOrNot(candidates: seq<Candidate>, id: RunId)
    ensures multiset(IneligibleIds(candidates))[id] + multiset(EligibleIds(candidates))[id]
            == multiset(IdsOf(candidates))[id]
  {
    if candidates != [] {
      EligibleOrNot(candidates[1..], id);
      assert IdsOf(candidates) == [candidates[0].id] + IdsOf(candidates[1..]);
      var head := if candidates[0].eligibility.EligibleRun? then [candidates[0].id] else [];
      var other := if candidates[0].eligibility.EligibleRun? then [] else [candidates[0].id];
      assert EligibleIds(candidates) == head + EligibleIds(candidates[1..]);
      assert IneligibleIds(candidates) == other + IneligibleIds(candidates[1..]);
      hide IdsOf, EligibleIds, IneligibleIds;
    }
  }

  lemma {:induction false} OutcomesAccount(auto: AutoResume, candidates: seq<Candidate>)
    ensures Accounted(OutcomesOf(auto, candidates)) == IdsOf(candidates)
  {
    if candidates != [] {
      OutcomesAccount(auto, candidates[1..]);
      assert OutcomesOf(auto, candidates)[1..] == OutcomesOf(auto, candidates[1..]);
      assert IdsOf(candidates) == [candidates[0].id] + IdsOf(candidates[1..]);
    }
  }

  lemma {:induction false} HoldBackAccounts(candidates: seq<Candidate>)
    requires EligibleIds(candidates) != []
    ensures var eligible := EligibleIds(candidates);
            multiset(Accounted([HeldBack(eligible[0], eligible)] + SkippedOutcomes(candidates))) == multiset(IdsOf(candidates))
  {
    var eligible, ineligible := EligibleIds(candidates), IneligibleIds(candidates);
    var held := HeldBack(eligible[0], eligible);
    SkippedAccount(candidates);
    assert ([held] + SkippedOutcomes(candidates))[1..] == SkippedOutcomes(candidates);
    assert Accounted([held] + SkippedOutcomes(candidates)) == eligible + ineligible;
    hide IdsOf, EligibleIds, IneligibleIds, Accounted;
    forall id ensures multiset(eligible + ineligible)[id] == multiset(IdsOf(candidates))[id] {
      EligibleOrNot(candidates, id);
    }
  }

  /** The pass attempts at most `threshold` resumes, all or none of the eligible runs, in
      order of age; and its outcomes speak for every candidate exactly once. */
  lemma {:induction false} PassAccountsForEveryCandidate(auto: AutoResume, candidates: seq<Candidate>)
    ensures var pass := StartupPass(auto, candidates);
            && |pass.attempts| <= NormalizedThreshold(auto.threshold)
            && (pass.attempts == EligibleIds(candidates) || pass.attempts == [])
            && (pass.attempts == [] <==> EligibleIds(candidates) == [] || |EligibleIds(candidates)| > NormalizedThreshold(auto.threshold))
            && multiset(Accounted(pass.outcomes)) == multiset(IdsOf(candidates))
  {
    hide IdsOf, EligibleIds, SkippedOutcomes, OutcomesOf, Accounted;
    OutcomesAccount(auto, candidates);
    if EligibleIds(candidates) != [] {
      HoldBackAccounts(candidates);
    }
  }

  lemma {:induction false} StaleMembers(runs: map<RunId, RunRow>, listing: seq<RunId>)
    ensures forall id :: id in StaleIds(runs, listing) <==> id in listing && id in runs && IsStaleWorkerRecoverable(runs[id])
    ensures NoDuplicates(listing) ==> NoDuplicates(StaleIds(runs, listing))
  {
    if listing != [] {
      StaleMembers(runs, listing[1..]);
    }
  }

  /** The scan and the pass fit together: every run the scan failed is a candidate of the
      pass, and it is eligible exactly when auto-resume is on, unless the threshold is in
      force and a prompt of it is open. */
  lemma {:induction false} ScannedRunsAreCandidates(host: Host, s: Store, running: seq<RunId>, listing: seq<RunId>,
                                                    auto: AutoResume, id: RunId)
    requires ListsRunning(running, s.runs) && id in s.runs && ShouldRecover(host, s.runs[id])
    requires forall other :: other in s.runs ==> other in listing
    ensures var t := Scan(host, s, running);
            && id in CandidateIds(t.runs, listing)
            && (EligibilityOf(host, t.runs, auto, id).EligibleRun? <==>
                  auto.enabled && (auto.threshold.None? || !auto.openPrompt(id)))
  {
    var t := Scan(host, s, running);
    ScanFailsExactlyTheOrphans(host, s, running);
    StaleMembers(t.runs, listing);
    SortByCorrect(StaleIds(t.runs, listing), AgeKey(t.runs));
  }

  /** The runs the pass considers: listed, failed as a whole, and for one of the engine's own
      reasons; the oldest first. */
  lemma {:induction false} CandidatesAreTheStaleRuns(runs: map<RunId, RunRow>, listing: seq<RunId>, id: RunId)
    ensures id in CandidateIds(runs, listing) <==>
              && id in listing && id in runs
              && runs[id].recoveryStatus == Some(RecoveryFailed) && runs[id].recoveryScope == Some(RunScope)
              && match runs[id].recoverySummary
                 case None => false
                 case Some(OtherSummary(_)) => false
                 case Some(_) => true
    ensures var ids := CandidateIds(runs, listing);
            forall i, j :: 0 <= i < j < |ids| && ids[i] in runs && ids[j] in runs ==> runs[ids[i]].createdAt <= runs[ids[j]].createdAt
  {
    StaleMembers(runs, listing);
    SortByCorrect(StaleIds(runs, listing), AgeKey(runs));
    hide SortBy, StaleIds;
    var ids := CandidateIds(runs, listing);
    forall i, j | 0 <= i < j < |ids| && ids[i] in runs && ids[j] in runs ensures runs[ids[i]].createdAt <= runs[ids[j]].createdAt {
      assert AgeKey(runs)(ids[i]) <= AgeKey(runs)(ids[j]);
    }
  }

  /** Why a candidate is resumed or not. */
  lemma {:induction false} CandidateIsClassified(host: Host, runs: map<RunId, RunRow>, auto: AutoResume, id: RunId)
    requires id in runs
    ensures var e, lost := EligibilityOf(host, runs, auto, id), LostItsWorker(host, runs[id]);
            var deferred := auto.threshold.Some? && auto.openPrompt(id);
            && (e == EligibleRun <==> lost && auto.enabled && !deferred)
            && (e == Ineligible(LeaseNotOrphaned) <==> !lost)
            && (e == Ineligible(AutoResumeDisabled) <==> lost && !auto.enabled)
            && (e == Ineligible(OpenPrompt) <==> lost && auto.enabled && deferred)
  {
  }

  lemma {:induction false} EligibleMeans(candidates: seq<Candidate>, id: RunId)
    ensures id in EligibleIds(candidates) <==> Candidate(id, EligibleRun) in candidates
  {
    if candidates != [] {
      EligibleMeans(candidates[1..], id);
      assert candidates == [candidates[0]] + candidates[1..];
    }
  }

  lemma {:induction false} SkippedMeans(candidates: seq<Candidate>, outcome: StartupOutcome)
    ensures outcome in SkippedOutcomes(candidates) <==>
              outcome.Skipped? && Candidate(outcome.runId, Ineligible(outcome.reason)) in candidates
  {
    if candidates != [] {
      SkippedMeans(candidates[1..], outcome);
      assert candidates == [candidates[0]] + candidates[1..];
    }
  }

  lemma {:induction false} OutcomesMean(auto: AutoResume, candidates: seq<Candidate>, outcome: StartupOutcome)
    ensures outcome in OutcomesOf(auto, candidates) <==>
              match outcome
              case Skipped(id, reason) => Candidate(id, Ineligible(reason)) in candidates
              case AutoResumed(id) => Candidate(id, EligibleRun) in candidates && auto.resume(id) == None
              case ResumeFailed(id, error) => Candidate(id, EligibleRun) in candidates && auto.resume(id) == Some(error)
              case HeldBack(_, _) => false
  {
    var all := OutcomesOf(auto, candidates);
    forall i | 0 <= i < |candidates| ensures OutcomeOf(auto, candidates[i]) in all {
      assert all[i] == OutcomeOf(auto, candidates[i]);
    }
    if outcome in all {
      var i :| 0 <= i < |all| && all[i] == outcome;
      assert candidates[i] in candidates;
      assert candidates[i] == Candidate(candidates[i].id, candidates[i].eligibility);
    }
  }

  /** More eligible runs than the threshold allows: at least one is always allowed, and
      without a threshold any number. */
  ghost predicate TooMany(auto: AutoResume, eligible: nat) {
    match auto.threshold
    case None => eligible > 0x1F_FFFF_FFFF_FFFF
    case Some(limit) => eligible > 1 && eligible as real >= (limit.Floor + 1) as real
  }

  /** The pass says of each run what happened to it: resumed or not as the attempt ended,
      skipped for its own reason, or held back with all the others that were eligible. */
  lemma {:induction false} PassSaysWhatHappened(auto: AutoResume, candidates: seq<Candidate>, outcome: StartupOutcome)
    ensures var pass, eligible := StartupPass(auto, candidates), EligibleIds(candidates);
            && (outcome in pass.outcomes <==>
                  match outcome
                  case AutoResumed(id) => id in pass.attempts && auto.resume(id) == None
                  case ResumeFailed(id, error) => id in pass.attempts && auto.resume(id) == Some(error)
                  case Skipped(id, reason) => Candidate(id, Ineligible(reason)) in candidates
                  case HeldBack(id, ids) => TooMany(auto, |eligible|) && id == eligible[0] && ids == eligible)
            && pass.attempts == if TooMany(auto, |eligible|) then [] else eligible
  {
    var eligible := EligibleIds(candidates);
    SkippedMeans(candidates, outcome);
    OutcomesMean(auto, candidates, outcome);
    if !outcome.HeldBack? {
      EligibleMeans(candidates, outcome.runId);
    }
    hide EligibleIds, SkippedOutcomes, OutcomesOf;
    assert TooMany(auto, |eligible|) <==> |eligible| > NormalizedThreshold(auto.threshold);
    if TooMany(auto, |eligible|) {
      var held := HeldBack(eligible[0], eligible);
      assert StartupPass(auto, candidates).outcomes == [held] + SkippedOutcomes(candidates);
    }
  }

  lemma {:induction false} EligibleInOrder(candidates: seq<Candidate>, key: RunId -> int)
    requires SortedBy(IdsOf(candidates), key)
    ensures SortedBy(EligibleIds(candidates), key)
    ensures forall id :: id in EligibleIds(candidates) ==> id in IdsOf(candidates)
  {
    if candidates != [] {
      var head, rest, later := candidates[0].id, IdsOf(candidates[1..]), EligibleIds(candidates[1..]);
      assert IdsOf(candidates) == [head] + rest;
      assert EligibleIds(candidates) == if candidates[0].eligibility.EligibleRun? then [head] + later else later;
      hide IdsOf, EligibleIds;
      SortedParts(head, rest, key);
      EligibleInOrder(candidates[1..], key);
      SortedTogether(head, later, key);
    }
  }

  lemma {:induction false} SortedParts(head: RunId, rest: seq<RunId>, key: RunId -> int)
    requires SortedBy([head] + rest, key)
    ensures SortedBy(rest, key) && forall id :: id in rest ==> key(head) <= key(id)
  {
    var all := [head] + rest;
    assert forall i :: 0 <= i < |rest| ==> rest[i] == all[i + 1];
    assert all[0] == head;
  }

  lemma {:induction false} SortedTogether(head: RunId, rest: seq<RunId>, key: RunId -> int)
    requires SortedBy(rest, key) && forall id :: id in rest ==> key(head) <= key(id)
    ensures SortedBy([head] + rest, key)
  {
  }

  /** Scan and pass together: every run the scan failed is spoken for by exactly one outcome,
      and the resumes attempted go from the oldest run to the youngest. */
  lemma {:induction false} StartupSpeaksForEveryOrphan(host: Host, s: Store, running: seq<RunId>, listing: seq<RunId>,
                                                       auto: AutoResume)
    requires ListsRunning(running, s.runs) && NoDuplicates(listing) && forall id :: id in s.runs ==> id in listing
    ensures var t := Scan(host, s, running);
            var pass := StartupPass(auto, Candidates(host, t.runs, auto, listing));
            && (forall id :: id in s.runs && ShouldRecover(host, s.runs[id]) ==> multiset(Accounted(pass.outcomes))[id] == 1)
            && SortedBy(pass.attempts, AgeKey(t.runs))
  {
    var t := Scan(host, s, running);
    var candidates, ids := Candidates(host, t.runs, auto, listing), CandidateIds(t.runs, listing);
    assert IdsOf(candidates) == ids;
    StaleMembers(t.runs, listing);
    SortByCorrect(StaleIds(t.runs, listing), AgeKey(t.runs));
    PermutationKeepsNoDuplicates(StaleIds(t.runs, listing), ids);
    PassAccountsForEveryCandidate(auto, candidates);
    EligibleInOrder(candidates, AgeKey(t.runs));
    hide Scan, Candidates, CandidateIds, IdsOf, EligibleIds, NoDuplicates, SortedBy, ShouldRecover, EligibilityOf,
         ListsRunning, Accounted;
    forall id | id in s.runs && ShouldRecover(host, s.runs[id]) ensures multiset(ids)[id] == 1 {
      ScannedRunsAreCandidates(host, s, running, listing, auto, id);
      OnceWhenNoDuplicates(ids, id);
      assert id in multiset(ids);
    }
    NothingIsSorted(AgeKey(t.runs));
  }

  /** Scan and pass together, run by run: an orphan is skipped while auto-resume is off or,
      with a threshold in force, a prompt of it is open; held back if there are too many; and
      else resumed, or reported with the error its resume threw. */
  lemma {:induction false} OrphanGetsItsOutcome(host: Host, s: Store, running: seq<RunId>, listing: seq<RunId>,
                                                auto: AutoResume, id: RunId)
    requires ListsRunning(running, s.runs) && forall other :: other in s.runs ==> other in listing
    requires id in s.runs && s.runs[id].status == Running && LostItsWorker(host, s.runs[id])
    ensures var candidates := Candidates(host, Scan(host, s, running).runs, auto, listing);
            var pass, eligible := StartupPass(auto, candidates), EligibleIds(candidates);
            if !auto.enabled then Skipped(id, AutoResumeDisabled) in pass.outcomes
            else if auto.threshold.Some? && auto.openPrompt(id) then Skipped(id, OpenPrompt) in pass.outcomes
            else
              && id in eligible
              && if TooMany(auto, |eligible|) then HeldBack(eligible[0], eligible) in pass.outcomes
                 else if auto.resume(id).None? then AutoResumed(id) in pass.outcomes
                 else ResumeFailed(id, auto.resume(id).value) in pass.outcomes
  {
    var t := Scan(host, s, running);
    var candidates := Candidates(host, t.runs, auto, listing);
    OrphansAreRecovered(host, s.runs[id]);
    ScannedRunsAreCandidates(host, s, running, listing, auto, id);
    ScanFailsExactlyTheOrphans(host, s, running);
    CandidateIsClassified(host, t.runs, auto, id);
    var ids, e := CandidateIds(t.runs, listing), EligibilityOf(host, t.runs, auto, id);
    var k :| 0 <= k < |ids| && ids[k] == id;
    assert candidates[k] == Candidate(id, e);
    assert e == if !auto.enabled then Ineligible(AutoResumeDisabled)
                else if auto.threshold.Some? && auto.openPrompt(id) then Ineligible(OpenPrompt) else EligibleRun;
    hide Scan, CandidateIds, EligibilityOf, Candidates, StartupPass, EligibleIds, ListsRunning, ShouldRecover,
         LostItsWorker, TooMany;
    EligibleMeans(candidates, id);
    PassSaysWhatHappened(auto, candidates, Skipped(id, AutoResumeDisabled));
    PassSaysWhatHappened(auto, candidates, Skipped(id, OpenPrompt));
    PassSaysWhatHappened(auto, candidates, AutoResumed(id));
    var eligible := EligibleIds(candidates);
    if id in eligible {
      PassSaysWhatHappened(auto, candidates, HeldBack(eligible[0], eligible));
      if auto.resume(id).Some? {
        PassSaysWhatHappened(auto, candidates, ResumeFailed(id, auto.resume(id).value));
      }
    }
  }

  lemma {:induction false} NothingIsSorted(key: RunId -> int)
    ensures SortedBy([], key)
  {
  }

  // ---------- the mutable tables ----------

  class Repos {
    var runs: map<RunId, RunRow>
    var items: map<ItemId, Item>
    var projections: seq<ItemId>
    /** The `startup_recovery` log rows, and the resumes attempted. */
    var recoveryLog: seq<StartupOutcome>
    var attempts: seq<RunId>

    function State(): Store
      reads this
    {
      Store(runs, items, projections)
    }

    method ProjectRecoveredRun(host: Host, id: RunId, row: RunRow)
      modifies this`items, this`projections
      ensures State() == Projected(host, old(State()), id, row)
    {
      if HasOtherLiveRun(runs, row.itemId, id) { return; }
      if row.itemId !in items { return; }
      var item := items[row.itemId];
      var column := if row.currentStage.Some? && row.currentStage.value != "" then host.failedColumnOf(row.currentStage.value) else item.column;
      items := items[row.itemId := Item(column, "failed", None)];
      projections := projections + [row.itemId];
    }

    method MarkRunFailedRecoverable(host: Host, id: RunId, summary: Summary)
      modifies this`runs, this`items, this`projections
      ensures State() == MarkedFailed(host, old(State()), id, summary)
    {
      if id !in runs { return; }
      var row := runs[id];
      runs := runs[id := FailedRow(row, summary)];
      ProjectRecoveredRun(host, id, row);
    }

    /** The scan loop: the listing is a snapshot, the table changes under it. */
    method RecoverLostWorkerRuns(host: Host, listing: seq<RunId>) returns (recovered: seq<RunId>)
      requires ListsRunning(listing, runs)
      modifies this`runs, this`items, this`projections
      ensures State() == Scan(host, old(State()), listing)
      ensures recovered == RecoveredIds(host, old(runs), listing)
    {
      recovered := [];
      ghost var before := State();
      var rows := runs;
      ScanStarts(host, before, listing);
      hide MarkedFailed, ShouldRecover, RecoverySummaryOf, Scan, OnTrack, ListsRunning;
      for i := 0 to |listing|
        invariant OnTrack(host, before, listing, i, State(), recovered)
      {
        var id := listing[i];
        ghost var now := State();
        ScanContinues(host, before, listing, i, now, recovered);
        if ShouldRecover(host, rows[id]) {
          MarkRunFailedRecoverable(host, id, RecoverySummaryOf(rows[id]));
          recovered := recovered + [id];
        }
      }
      ScanIsDone(host, before, listing, State(), recovered);
    }

    method HoldBackEligible(candidates: seq<Candidate>, eligible: seq<RunId>) returns (outcomes: seq<StartupOutcome>)
      requires eligible != []
      modifies this`recoveryLog
      ensures outcomes == [HeldBack(eligible[0], eligible)] + SkippedOutcomes(candidates)
      ensures recoveryLog == old(recoveryLog) + outcomes
    {
      outcomes := [HeldBack(eligible[0], eligible)];
      recoveryLog := recoveryLog + outcomes;
      for i := 0 to |candidates|
        invariant outcomes + SkippedOutcomes(candidates[i..])
                  == [HeldBack(eligible[0], eligible)] + SkippedOutcomes(candidates)
        invariant recoveryLog == old(recoveryLog) + outcomes
      {
        assert candidates[i..][0] == candidates[i] && candidates[i..][1..] == candidates[i + 1..];
        if candidates[i].eligibility.Ineligible? {
          outcomes := outcomes + [Skipped(candidates[i].id, candidates[i].eligibility.reason)];
          recoveryLog := recoveryLog + [Skipped(candidates[i].id, candidates[i].eligibility.reason)];
        }
      }
    }

    method ResolveCandidate(auto: AutoResume, c: Candidate) returns (outcome: StartupOutcome)
      modifies this`attempts
      ensures outcome == OutcomeOf(auto, c)
      ensures attempts == old(attempts) + EligibleIds([c])
    {
      if c.eligibility.Ineligible? {
        return Skipped(c.id, c.eligibility.reason);
      }
      attempts := attempts + [c.id];
      var error := auto.resume(c.id);
      outcome := if error.None? then AutoResumed(c.id) else ResumeFailed(c.id, error.value);
    }

    method ResolveCandidates(auto: AutoResume, candidates: seq<Candidate>) returns (outcomes: seq<StartupOutcome>)
      modifies this`recoveryLog, this`attempts
      ensures outcomes == OutcomesOf(auto, candidates)
      ensures recoveryLog == old(recoveryLog) + outcomes
      ensures attempts == old(attempts) + EligibleIds(candidates)
    {
      outcomes := [];
      for i := 0 to |candidates|
        invariant |outcomes| == i && forall j :: 0 <= j < i ==> outcomes[j] == OutcomeOf(auto, candidates[j])
        invariant recoveryLog == old(recoveryLog) + outcomes
        invariant attempts + EligibleIds(candidates[i..]) == old(attempts) + EligibleIds(candidates)
      {
        assert candidates[i..][0] == candidates[i] && candidates[i..][1..] == candidates[i + 1..];
        var outcome := ResolveCandidate(auto, candidates[i]);
        outcomes := outcomes + [outcome];
        recoveryLog := recoveryLog + [outcome];
      }
    }

    method ResolveStartupPass(auto: AutoResume, candidates: seq<Candidate>) returns (outcomes: seq<StartupOutcome>)
      modifies this`recoveryLog, this`attempts
      ensures var pass := StartupPass(auto, candidates);
              && outcomes == pass.outcomes
              && recoveryLog == old(recoveryLog) + pass.outcomes
              && attempts == old(attempts) + pass.attempts
    {
      var eligible := EligibleIds(candidates);
      if |eligible| > NormalizedThreshold(auto.threshold) {
        outcomes := HoldBackEligible(candidates, eligible);
      } else {
        outcomes := ResolveCandidates(auto, candidates);
      }
    }
  }
}
