/** Model of the worker admission controller (`workerAdmission.ts`): a queue of starts, the
    set of launches in flight, and a cap over the shared run table.

    `Admission` is the whole state as a value. Each controller operation is one atomic
    step (none of them awaits before it is done), and what the world does in between
    (runs starting, ending, settling) is a step too, so a list of steps is one
    interleaving. The class `Controller` is the mutable object, proved to perform these
    steps in place. */
module WorkerAdmission {
  import opened Arithmetic
  import opened Ordering

  /** Row ids are opaque: they are only ever compared. */
  datatype RunId = RunId(key: int)

  /** Identifies one start closure: the n-th one handed to the controller. */
  type StartToken = nat

  datatype RunStatus = Queued | Running | Completed | Failed | Blocked | OtherStatus(name: string)

  datatype Run = Run(status: RunStatus, createdAt: int)

  datatype Launched = Launched(id: RunId, token: StartToken)

  /** What a start does before it first waits: the status it leaves in its run's row, and
      whether it throws. */
  datatype Prefix = Prefix(status: RunStatus, throws: bool)

  datatype Admission = Admission(
    cap: int,
    runs: map<RunId, Run>,
    pending: map<RunId, StartToken>,
    launching: set<RunId>,
    started: seq<Launched>,
    issued: nat)

  // ---------- capacity ----------

  predicate IsSettledStatus(status: RunStatus) { status in {Completed, Failed, Blocked} }

  function RunningIds(s: Admission): set<RunId> {
    set id | id in s.runs && s.runs[id].status == Running
  }

  /** Launches whose run the table does not yet show as running or ended. */
  function Reservations(s: Admission): set<RunId> {
    set id | id in s.launching && !(id in s.runs && (s.runs[id].status == Running || IsSettledStatus(s.runs[id].status)))
  }

  predicate HasCapacity(s: Admission) { |RunningIds(s)| + |Reservations(s)| < s.cap }

  /** Every run that takes up a slot, once each. */
  ghost function Occupied(s: Admission): set<RunId> { RunningIds(s) + Reservations(s) }

  lemma {:induction false} DisjointUnionSize<T>(a: set<T>, b: set<T>)
    requires a !! b
    ensures |a + b| == |a| + |b|
  {
  }

  lemma {:induction false} CapacityIsOccupancy(s: Admission)
    ensures HasCapacity(s) <==> |Occupied(s)| < s.cap
  {
    DisjointUnionSize(RunningIds(s), Reservations(s));
  }

  /** A run takes up a slot exactly if its row is running, or it is being launched and its
      row is not there or says neither that it runs nor that it has ended. */
  lemma {:induction false} WhoHoldsASlot(s: Admission, id: RunId)
    ensures id in Occupied(s) <==>
              || (id in s.runs && s.runs[id].status == Running)
              || (id in s.launching && (id in s.runs ==> s.runs[id].status !in {Running, Completed, Failed, Blocked}))
  {
  }

  lemma {:induction false} SubsetSize<T>(a: set<T>, b: set<T>)
    requires a <= b
    ensures |a| <= |b|
  {
    DisjointUnionSize(a, b - a);
    assert a + (b - a) == b;
  }

  // ---------- the controller's steps ----------

  /** The `finally` of `launch`. */
  function Settle(s: Admission, id: RunId): Admission {
    s.(launching := s.launching - {id}, pending := s.pending - {id})
  }

  /** `launch` up to its first await: the id is reserved and the start runs its synchronous
      prefix; if that throws, the launch settles at once. */
  function Launch(s: Admission, id: RunId, token: StartToken, after: Prefix): Admission {
    var begun := s.(launching := s.launching + {id},
                    started := s.started + [Launched(id, token)],
                    runs := if id in s.runs then s.runs[id := s.runs[id].(status := after.status)] else s.runs);
    if after.throws then Settle(begun, id) else begun
  }

  function Enqueue(s: Admission, id: RunId): Admission {
    s.(pending := s.pending[id := s.issued], issued := s.issued + 1)
  }

  function RunAdmitted(s: Admission, id: RunId, after: Prefix): Admission {
    Launch(s.(issued := s.issued + 1), id, s.issued, after)
  }

  function CreatedAt(runs: map<RunId, Run>, id: RunId): int {
    if id in runs then runs[id].createdAt else 0
  }

  function AgeKey(runs: map<RunId, Run>): RunId -> int { id => CreatedAt(runs, id) }

  function QueuedOf(runs: map<RunId, Run>, listing: seq<RunId>): seq<RunId> {
    if listing == [] then []
    else (if listing[0] in runs && runs[listing[0]].status == Queued then [listing[0]] else []) + QueuedOf(runs, listing[1..])
  }

  /** The queued runs, oldest first, of a listing of the table. */
  function Queue(s: Admission, listing: seq<RunId>): seq<RunId> {
    SortBy(QueuedOf(s.runs, listing), AgeKey(s.runs))
  }

  predicate IsEligible(s: Admission, id: RunId) { id !in s.launching && id in s.pending }

  function Drained(s: Admission, queue: seq<RunId>, prefix: RunId -> Prefix): Admission
    decreases |queue|
  {
    if queue == [] || !HasCapacity(s) then s
    else if !IsEligible(s, queue[0]) then Drained(s, queue[1..], prefix)
    else Drained(Launch(s, queue[0], s.pending[queue[0]], prefix(queue[0])), queue[1..], prefix)
  }

  /** `listRuns()` lists every row once, in whatever order. */
  ghost predicate Lists(listing: seq<RunId>, runs: map<RunId, Run>) {
    NoDuplicates(listing) && forall id :: id in listing <==> id in runs
  }

  function Drain(s: Admission, listing: seq<RunId>, prefix: RunId -> Prefix): Admission {
    Drained(s, Queue(s, listing), prefix)
  }

  // ---------- one drain ----------

  function Eligible(s: Admission, queue: seq<RunId>): seq<RunId> {
    if queue == [] then []
    else (if IsEligible(s, queue[0]) then [queue[0]] else []) + Eligible(s, queue[1..])
  }

  function Starts(s: Admission, ids: seq<RunId>): seq<Launched>
    requires forall i :: 0 <= i < |ids| ==> ids[i] in s.pending
  {
    seq(|ids|, i requires 0 <= i < |ids| => Launched(ids[i], s.pending[ids[i]]))
  }

  lemma {:induction false} EligibleMembers(s: Admission, queue: seq<RunId>)
    ensures forall id :: id in Eligible(s, queue) <==> id in queue && IsEligible(s, id)
  {
    if queue != [] {
      EligibleMembers(s, queue[1..]);
    }
  }

  lemma {:induction false} EligibleSame(s: Admission, t: Admission, queue: seq<RunId>)
    requires forall id :: id in queue ==> (IsEligible(s, id) <==> IsEligible(t, id))
    ensures Eligible(s, queue) == Eligible(t, queue)
  {
    if queue != [] {
      EligibleSame(s, t, queue[1..]);
    }
  }

  ghost predicate IdsQueued(s: Admission, queue: seq<RunId>) {
    forall id :: id in queue ==> id in s.runs && s.runs[id].status == Queued
  }

  /** The ids whose start throws at once, and those whose start does not. */
  ghost function Throwing(ids: seq<RunId>, prefix: RunId -> Prefix): set<RunId> {
    set id | id in ids && prefix(id).throws
  }

  ghost function InFlight(ids: seq<RunId>, prefix: RunId -> Prefix): set<RunId> {
    set id | id in ids && !prefix(id).throws
  }

  /** t is s after starting the first n eligible runs of the queue and nothing else. */
  ghost predicate StartedPrefix(s: Admission, queue: seq<RunId>, prefix: RunId -> Prefix, t: Admission, n: nat) {
    var eligible := Eligible(s, queue);
    && n <= |eligible|
    && (forall i :: 0 <= i < |eligible| ==> eligible[i] in s.pending)
    && StartedAll(s, eligible[..n], prefix, t)
  }

  /** The rows of the started runs are as their starts left them, the others as they were. */
  ghost predicate RowsFollow(before: map<RunId, Run>, after: map<RunId, Run>, ids: seq<RunId>, prefix: RunId -> Prefix)
  {
    && after.Keys == before.Keys
    && forall id :: id in before ==> after[id] == if id in ids then before[id].(status := prefix(id).status) else before[id]
  }

  lemma {:induction false} EligibleStep(s: Admission, queue: seq<RunId>, s1: Admission, after: Prefix)
    requires queue != [] && NoDuplicates(queue) && IsEligible(s, queue[0])
    requires s1 == Launch(s, queue[0], s.pending[queue[0]], after)
    ensures Eligible(s, queue) == [queue[0]] + Eligible(s1, queue[1..]) && queue[0] !in Eligible(s1, queue[1..])
  {
    assert queue[0] !in queue[1..];
    EligibleSame(s, s1, queue[1..]);
    EligibleMembers(s1, queue[1..]);
  }

  /** t is s after starting the runs `ids`, in this order. */
  ghost predicate StartedAll(s: Admission, ids: seq<RunId>, prefix: RunId -> Prefix, t: Admission)
    requires forall i :: 0 <= i < |ids| ==> ids[i] in s.pending
  {
    && t.started == s.started + Starts(s, ids)
    && t.launching == s.launching + InFlight(ids, prefix)
    && t.pending == s.pending - Throwing(ids, prefix)
    && t.cap == s.cap && t.issued == s.issued
    && RowsFollow(s.runs, t.runs, ids, prefix)
  }

  lemma {:induction false} StartsStep(s: Admission, s1: Admission, head: RunId, rest: seq<RunId>, gone: set<RunId>)
    requires head in s.pending && (forall i :: 0 <= i < |rest| ==> rest[i] in s1.pending)
             && s1.pending == s.pending - gone
    ensures forall i :: 0 <= i < |[head] + rest| ==> ([head] + rest)[i] in s.pending
    ensures Starts(s, [head] + rest) == [Launched(head, s.pending[head])] + Starts(s1, rest)
  {
  }

  lemma {:induction false} StartedAllStep(s: Admission, s1: Admission, t: Admission, head: RunId, rest: seq<RunId>,
                                          prefix: RunId -> Prefix)
    requires IsEligible(s, head) && s1 == Launch(s, head, s.pending[head], prefix(head)) && head !in rest
    requires (forall i :: 0 <= i < |rest| ==> rest[i] in s1.pending) && StartedAll(s1, rest, prefix, t)
    ensures forall i :: 0 <= i < |[head] + rest| ==> ([head] + rest)[i] in s.pending
    ensures StartedAll(s, [head] + rest, prefix, t)
  {
    LaunchFields(s, head, prefix(head));
    var gone := if prefix(head).throws then {head} else {};
    StartsStep(s, s1, head, rest, gone);
    HeadSplits(head, rest, prefix);
    RowsFollowStep(s.runs, s1.runs, t.runs, head, rest, prefix);
    hide Launch, Starts, Throwing, InFlight, RowsFollow;
    assert t.pending == s.pending - (Throwing(rest, prefix) + gone);
  }

  lemma {:induction false} StartedPrefixStep(s: Admission, queue: seq<RunId>, prefix: RunId -> Prefix, s1: Admission,
                                             t: Admission, m: nat)
    requires queue != [] && NoDuplicates(queue) && IsEligible(s, queue[0])
    requires s1 == Launch(s, queue[0], s.pending[queue[0]], prefix(queue[0]))
    requires StartedPrefix(s1, queue[1..], prefix, t, m)
    ensures StartedPrefix(s, queue, prefix, t, m + 1) && |Eligible(s, queue)| == |Eligible(s1, queue[1..])| + 1
  {
    var head := queue[0];
    EligibleStep(s, queue, s1, prefix(head));
    var rest := Eligible(s1, queue[1..]);
    assert ([head] + rest)[..m + 1] == [head] + rest[..m];
    StartsStep(s, s1, head, rest, if prefix(head).throws then {head} else {});
    hide StartedAll, Eligible, Launch;
    StartedAllStep(s, s1, t, head, rest[..m], prefix);
  }

  lemma {:induction false} RowsFollowStep(before: map<RunId, Run>, mid: map<RunId, Run>, after: map<RunId, Run>,
                                          head: RunId, rest: seq<RunId>, prefix: RunId -> Prefix)
    requires head !in rest && RowsFollow(before, mid, [head], prefix) && RowsFollow(mid, after, rest, prefix)
    ensures RowsFollow(before, after, [head] + rest, prefix)
  {
  }

  lemma {:induction false} LaunchFields(s: Admission, id: RunId, after: Prefix)
    requires IsEligible(s, id)
    ensures var t := Launch(s, id, s.pending[id], after);
            && t.started == s.started + [Launched(id, s.pending[id])]
            && t.launching == s.launching + (if after.throws then {} else {id})
            && t.pending == s.pending - (if after.throws then {id} else {})
            && t.cap == s.cap && t.issued == s.issued
            && forall prefix: RunId -> Prefix :: prefix(id) == after ==> RowsFollow(s.runs, t.runs, [id], prefix)
  {
  }

  lemma {:induction false} HeadSplits(head: RunId, rest: seq<RunId>, prefix: RunId -> Prefix)
    ensures Throwing([head] + rest, prefix) == Throwing(rest, prefix) + if prefix(head).throws then {head} else {}
    ensures InFlight([head] + rest, prefix) == InFlight(rest, prefix) + if prefix(head).throws then {} else {head}
    ensures forall id :: id in Throwing(rest, prefix) || id in InFlight(rest, prefix) ==> id in rest
  {
  }

  lemma {:induction false} NothingStarted(s: Admission, queue: seq<RunId>, prefix: RunId -> Prefix)
    ensures StartedPrefix(s, queue, prefix, s, 0)
  {
    var eligible := Eligible(s, queue);
    EligibleMembers(s, queue);
    forall i | 0 <= i < |eligible| ensures eligible[i] in s.pending {
      assert eligible[i] in eligible;
    }
    assert Starts(s, eligible[..0]) == [];
    assert Throwing(eligible[..0], prefix) == {} && InFlight(eligible[..0], prefix) == {};
  }

  /** A drain starts a prefix of the eligible runs of the queue, in queue order, each with
      the start registered for it; it stops early only for want of capacity; and it
      touches no other run. */
  lemma {:induction false} DrainStartsAPrefix(s: Admission, queue: seq<RunId>, prefix: RunId -> Prefix) returns (n: nat)
    requires NoDuplicates(queue)
    ensures var t := Drained(s, queue, prefix);
            StartedPrefix(s, queue, prefix, t, n) && (n == |Eligible(s, queue)| || !HasCapacity(t))
    decreases |queue|
  {
    hide HasCapacity, StartedPrefix;
    if queue == [] || !HasCapacity(s) {
      n := 0;
      NothingStarted(s, queue, prefix);
    } else if !IsEligible(s, queue[0]) {
      n := DrainStartsAPrefix(s, queue[1..], prefix);
      HeadPassedOver(s, queue, prefix, Drained(s, queue, prefix), n);
    } else {
      var s1 := Launch(s, queue[0], s.pending[queue[0]], prefix(queue[0]));
      var m := DrainStartsAPrefix(s1, queue[1..], prefix);
      n := m + 1;
      StartedPrefixStep(s, queue, prefix, s1, Drained(s, queue, prefix), m);
    }
  }

  lemma {:induction false} HeadPassedOver(s: Admission, queue: seq<RunId>, prefix: RunId -> Prefix, t: Admission,
                                          n: nat)
    requires queue != [] && !IsEligible(s, queue[0]) && StartedPrefix(s, queue[1..], prefix, t, n)
    ensures StartedPrefix(s, queue, prefix, t, n) && Eligible(s, queue) == Eligible(s, queue[1..])
  {
    assert Eligible(s, queue) == Eligible(s, queue[1..]);
    hide Eligible, Throwing, InFlight, Starts;
  }

  lemma {:induction false} QueuedMembers(runs: map<RunId, Run>, listing: seq<RunId>)
    ensures forall id :: id in QueuedOf(runs, listing) <==> id in listing && id in runs && runs[id].status == Queued
    ensures NoDuplicates(listing) ==> NoDuplicates(QueuedOf(runs, listing))
  {
    if listing != [] {
      QueuedMembers(runs, listing[1..]);
    }
  }

  lemma {:induction false} QueueIsWhole(s: Admission, listing: seq<RunId>)
    requires Lists(listing, s.runs)
    ensures var queue := Queue(s, listing);
            && NoDuplicates(queue) && IdsQueued(s, queue) && SortedBy(queue, AgeKey(s.runs))
            && forall id :: id in queue <==> id in s.runs && s.runs[id].status == Queued
  {
    QueuedMembers(s.runs, listing);
    SortByCorrect(QueuedOf(s.runs, listing), AgeKey(s.runs));
    PermutationKeepsNoDuplicates(QueuedOf(s.runs, listing), Queue(s, listing));
  }

  /** A queued run whose start is waiting and not in flight. */
  predicate Waiting(s: Admission, id: RunId) {
    id in s.runs && s.runs[id].status == Queued && IsEligible(s, id)
  }

  predicate StartedBetween(s: Admission, t: Admission, id: RunId) {
    |s.started| <= |t.started| && exists i :: |s.started| <= i < |t.started| && t.started[i].id == id
  }

  lemma {:induction false} EligibleSorted(s: Admission, queue: seq<RunId>, key: RunId -> int)
    requires SortedBy(queue, key)
    ensures SortedBy(Eligible(s, queue), key)
  {
    if queue != [] {
      EligibleSorted(s, queue[1..], key);
      EligibleMembers(s, queue[1..]);
      var rest := Eligible(s, queue[1..]);
      forall i | 0 <= i < |rest| ensures key(queue[0]) <= key(rest[i]) {
        assert rest[i] in queue[1..];
      }
    }
  }

  /** FIFO: whatever a drain starts, no waiting run older than it is left behind. */
  lemma {:induction false} DrainIsFifo(s: Admission, listing: seq<RunId>, prefix: RunId -> Prefix, younger: RunId,
                                       older: RunId)
    requires Lists(listing, s.runs)
    requires StartedBetween(s, Drain(s, listing, prefix), younger)
    requires Waiting(s, older) && younger in s.runs && s.runs[older].createdAt < s.runs[younger].createdAt
    ensures StartedBetween(s, Drain(s, listing, prefix), older)
  {
    hide HasCapacity, Drained, SortBy, QueuedOf, Eligible;
    var queue := Queue(s, listing);
    QueueIsWhole(s, listing);
    var n := DrainStartsAPrefix(s, queue, prefix);
    EligibleSorted(s, queue, AgeKey(s.runs));
    EligibleMembers(s, queue);
    PrefixIsFifo(s, queue, prefix, Drain(s, listing, prefix), n, younger, older);
  }

  lemma {:induction false} PrefixIsFifo(s: Admission, queue: seq<RunId>, prefix: RunId -> Prefix, t: Admission, n: nat,
                                        younger: RunId, older: RunId)
    requires StartedPrefix(s, queue, prefix, t, n)
    requires SortedBy(Eligible(s, queue), AgeKey(s.runs))
    requires StartedBetween(s, t, younger)
    requires older in Eligible(s, queue) && CreatedAt(s.runs, older) < CreatedAt(s.runs, younger)
    ensures StartedBetween(s, t, older)
  {
    hide Eligible, SortedBy;
    var eligible := Eligible(s, queue);
    var y :| |s.started| <= y < |t.started| && t.started[y].id == younger;
    var o :| 0 <= o < |eligible| && eligible[o] == older;
    assert eligible[y - |s.started|] == younger;
    OlderComesFirst(eligible, AgeKey(s.runs), o, y - |s.started|);
    assert t.started[|s.started| + o].id == older;
  }

  lemma {:induction false} OlderComesFirst(s: seq<RunId>, key: RunId -> int, i: nat, j: nat)
    requires SortedBy(s, key) && i < |s| && j < |s| && key(s[i]) < key(s[j])
    ensures i < j
  {
  }

  /** Work conservation: after a drain there is no capacity left or nothing waiting, and a
      waiting run is started at once if there was capacity for it. */
  lemma {:induction false} DrainConservesWork(s: Admission, listing: seq<RunId>, prefix: RunId -> Prefix)
    requires Lists(listing, s.runs)
    ensures var t := Drain(s, listing, prefix);
            && (!HasCapacity(t) || forall id :: !Waiting(t, id))
            && (HasCapacity(s) && (exists id :: Waiting(s, id)) ==> |t.started| > |s.started|)
  {
    var queue := Queue(s, listing);
    QueueIsWhole(s, listing);
    var n := DrainStartsAPrefix(s, queue, prefix);
    EligibleMembers(s, queue);
    var t := Drain(s, listing, prefix);
    if n == 0 && HasCapacity(s) {
      assert t.runs == s.runs && t.launching == s.launching;
    }
  }

  /** With capacity, the first start a drain invokes is that of a waiting run no other
      waiting run is older than. */
  lemma {:induction false} DrainStartsTheOldest(s: Admission, listing: seq<RunId>, prefix: RunId -> Prefix)
    requires Lists(listing, s.runs) && HasCapacity(s) && exists id :: Waiting(s, id)
    ensures var t, n := Drain(s, listing, prefix), |s.started|;
            && |t.started| > n && Waiting(s, t.started[n].id) && t.started[n].token == s.pending[t.started[n].id]
            && forall id :: Waiting(s, id) ==> s.runs[t.started[n].id].createdAt <= s.runs[id].createdAt
  {
    DrainConservesWork(s, listing, prefix);
    hide HasCapacity, Drained, SortBy, QueuedOf, Eligible;
    var queue := Queue(s, listing);
    QueueIsWhole(s, listing);
    var n := DrainStartsAPrefix(s, queue, prefix);
    EligibleSorted(s, queue, AgeKey(s.runs));
    EligibleMembers(s, queue);
    var eligible, t := Eligible(s, queue), Drain(s, listing, prefix);
    assert n > 0 && eligible[0] in eligible && t.started[|s.started|] == Launched(eligible[0], s.pending[eligible[0]]);
    forall id | Waiting(s, id) ensures s.runs[eligible[0]].createdAt <= s.runs[id].createdAt {
      var i :| 0 <= i < |eligible| && eligible[i] == id;
      assert AgeKey(s.runs)(eligible[0]) <= AgeKey(s.runs)(eligible[i]);
    }
  }

  lemma {:induction false} OneMoreSize<T>(a: set<T>, b: set<T>, x: T)
    requires a <= b + {x}
    ensures |a| <= |b| + 1
  {
    SubsetSize(a, b + {x});
    if x in b {
      assert b + {x} == b;
    } else {
      DisjointUnionSize(b, {x});
    }
  }

  lemma {:induction false} LaunchOccupies(s: Admission, id: RunId, token: StartToken, after: Prefix, x: RunId)
    requires x != id
    ensures x in Occupied(Launch(s, id, token, after)) <==> x in Occupied(s)
  {
  }

  /** A launch takes at most its own slot. */
  lemma {:induction false} LaunchTakesOneSlot(s: Admission, id: RunId, token: StartToken, after: Prefix)
    ensures Occupied(Launch(s, id, token, after)) <= Occupied(s) + {id}
    ensures |Occupied(Launch(s, id, token, after))| <= |Occupied(s)| + 1
  {
    forall x | x in Occupied(Launch(s, id, token, after)) ensures x in Occupied(s) + {id} {
      if x != id {
        LaunchOccupies(s, id, token, after, x);
      }
    }
    hide Occupied, Launch;
    OneMoreSize(Occupied(Launch(s, id, token, after)), Occupied(s), id);
  }

  /** A drain never takes the occupancy above the cap, whatever the queue and whatever the
      starts do to their own rows before they first wait. */
  lemma {:induction false} DrainKeepsCapacity(s: Admission, queue: seq<RunId>, prefix: RunId -> Prefix)
    ensures |Occupied(Drained(s, queue, prefix))| <= Max(|Occupied(s)|, s.cap)
    decreases |queue|
  {
    hide HasCapacity, RunningIds, Reservations, Occupied;
    if queue == [] || !HasCapacity(s) {
    } else if !IsEligible(s, queue[0]) {
      DrainKeepsCapacity(s, queue[1..], prefix);
    } else {
      var s1 := Launch(s, queue[0], s.pending[queue[0]], prefix(queue[0]));
      CapacityIsOccupancy(s);
      LaunchTakesOneSlot(s, queue[0], s.pending[queue[0]], prefix(queue[0]));
      DrainKeepsCapacity(s1, queue[1..], prefix);
    }
  }

  // ---------- whole runs ----------

  datatype Action =
    | EnqueueRun(id: RunId)
    | DrainQueue(listing: seq<RunId>, prefix: RunId -> Prefix)
    | AdmitRun(id: RunId, after: Prefix)
    | SettleLaunch(id: RunId)
    | ChangeRow(id: RunId, row: Run)

  function Apply(s: Admission, a: Action): Admission {
    match a
    case EnqueueRun(id) => Enqueue(s, id)
    case DrainQueue(listing, prefix) => Drain(s, listing, prefix)
    case AdmitRun(id, after) => RunAdmitted(s, id, after)
    case SettleLaunch(id) => Settle(s, id)
    case ChangeRow(id, row) => s.(runs := s.runs[id := row])
  }

  /** Whether a direct admission leaves its run holding a slot. */
  predicate TakesSlot(s: Admission, id: RunId, after: Prefix) {
    if id in s.runs then after.status == Running || (!after.throws && !IsSettledStatus(after.status)) else !after.throws
  }

  /** Whether a row change leaves its run holding a slot. */
  predicate RowTakesSlot(s: Admission, id: RunId, row: Run) {
    row.status == Running || (id in s.launching && !IsSettledStatus(row.status))
  }

  /** A step that gives a run a slot is covered: the run holds one already, or there is
      capacity. The controller's own steps need no cover. */
  ghost predicate Covered(s: Admission, a: Action) {
    match a
    case AdmitRun(id, after) => id in Occupied(s) || HasCapacity(s) || !TakesSlot(s, id, after)
    case ChangeRow(id, row) => id in Occupied(s) || HasCapacity(s) || !RowTakesSlot(s, id, row)
    case _ => true
  }

  function Perform(s: Admission, actions: seq<Action>): Admission {
    if actions == [] then s else Apply(Perform(s, actions[..|actions| - 1]), actions[|actions| - 1])
  }

  /** The state after the first n steps. */
  function After(s: Admission, actions: seq<Action>, n: nat): Admission
    requires n <= |actions|
  {
    Perform(s, actions[..n])
  }

  /** The first n steps were covered. */
  ghost predicate AllCovered(s: Admission, actions: seq<Action>, n: nat)
    requires n <= |actions|
  {
    forall i :: 0 <= i < n ==> Covered(After(s, actions, i), actions[i])
  }

  lemma {:induction false} AdmittedOccupies(s: Admission, id: RunId, after: Prefix)
    requires id !in Occupied(s)
    ensures Occupied(RunAdmitted(s, id, after)) == if TakesSlot(s, id, after) then Occupied(s) + {id} else Occupied(s)
  {
    var t := s.(issued := s.issued + 1);
    assert Occupied(t) == Occupied(s);
    var after' := Occupied(RunAdmitted(s, id, after));
    assert id in after' <==> TakesSlot(s, id, after);
    forall x ensures x in after' <==> x in Occupied(s) || (x == id && TakesSlot(s, id, after)) {
      if x != id {
        LaunchOccupies(t, id, s.issued, after, x);
      }
    }
  }

  /** `runAdmitted` does not look at the capacity itself: for a run without a slot the cap
      survives exactly when there was capacity or the admission gives it none. */
  lemma {:induction false} AdmittingNeedsCapacity(s: Admission, id: RunId, after: Prefix)
    requires |Occupied(s)| <= s.cap && id !in Occupied(s)
    ensures |Occupied(RunAdmitted(s, id, after))| <= s.cap <==> HasCapacity(s) || !TakesSlot(s, id, after)
  {
    CapacityIsOccupancy(s);
    AdmittedOccupies(s, id, after);
    hide Occupied, HasCapacity, RunAdmitted, TakesSlot;
    DisjointUnionSize(Occupied(s), {id});
  }

  lemma {:induction false} AdmitKeepsCapacity(s: Admission, id: RunId, after: Prefix)
    requires |Occupied(s)| <= s.cap
    ensures |Occupied(RunAdmitted(s, id, after))| <= s.cap <==> Covered(s, AdmitRun(id, after))
  {
    hide HasCapacity, TakesSlot, Occupied, RunAdmitted;
    if id in Occupied(s) {
      AdmittedTakesOneSlot(s, id, after);
      SubsetSize(Occupied(RunAdmitted(s, id, after)), Occupied(s));
    } else {
      AdmittingNeedsCapacity(s, id, after);
    }
  }

  lemma {:induction false} AdmittedTakesOneSlot(s: Admission, id: RunId, after: Prefix)
    ensures Occupied(RunAdmitted(s, id, after)) <= Occupied(s) + {id}
  {
    var s0 := s.(issued := s.issued + 1);
    assert Occupied(s0) == Occupied(s);
    LaunchTakesOneSlot(s0, id, s.issued, after);
    hide Occupied, Launch;
  }

  lemma {:induction false} ChangeTouchesOneSlot(s: Admission, id: RunId, row: Run)
    ensures var t := s.(runs := s.runs[id := row]);
            Occupied(t) == if RowTakesSlot(s, id, row) then Occupied(s) + {id} else Occupied(s) - {id}
  {
  }

  lemma {:induction false} ChangeKeepsCapacity(s: Admission, id: RunId, row: Run)
    requires |Occupied(s)| <= s.cap
    ensures |Occupied(Apply(s, ChangeRow(id, row)))| <= s.cap <==> Covered(s, ChangeRow(id, row))
  {
    hide HasCapacity, Occupied, RowTakesSlot;
    var t := s.(runs := s.runs[id := row]);
    CapacityIsOccupancy(s);
    ChangeTouchesOneSlot(s, id, row);
    if RowTakesSlot(s, id, row) && id !in Occupied(s) {
      DisjointUnionSize(Occupied(s), {id});
    } else {
      SubsetSize(Occupied(t), Occupied(s));
    }
  }

  /** A run whose row comes to say that it has ended gives its slot back, also while its
      launch has not settled; the other runs keep theirs. */
  lemma {:induction false} EndingFreesTheSlot(s: Admission, id: RunId, row: Run)
    requires row.status == Completed || row.status == Failed || row.status == Blocked
    ensures Occupied(Apply(s, ChangeRow(id, row))) == Occupied(s) - {id}
  {
  }

  /** Right after a run has ended, with fewer than `cap` other runs holding a slot, a drain
      invokes the registered start of a queued run that is not in flight, the oldest such. */
  lemma {:induction false} EndedRunMakesRoom(s: Admission, id: RunId, row: Run, other: RunId, listing: seq<RunId>,
                                             prefix: RunId -> Prefix)
    requires row.status == Completed || row.status == Failed || row.status == Blocked
    requires |Occupied(s) - {id}| < s.cap && Lists(listing, s.runs[id := row])
    requires other != id && other in s.runs && s.runs[other].status == Queued
    requires other in s.pending && other !in s.launching
    ensures var t, n := Drain(Apply(s, ChangeRow(id, row)), listing, prefix), |s.started|;
            && |t.started| > n && t.started[n].id in s.pending && t.started[n].token == s.pending[t.started[n].id]
            && t.started[n].id in s.runs && s.runs[t.started[n].id].createdAt <= s.runs[other].createdAt
  {
    hide Drain, Occupied, HasCapacity;
    var ended := Apply(s, ChangeRow(id, row));
    EndingFreesTheSlot(s, id, row);
    CapacityIsOccupancy(ended);
    assert Waiting(ended, other);
    DrainStartsTheOldest(ended, listing, prefix);
  }

  /** A start enqueued for a queued run that is not in flight is the one a drain with capacity
      invokes first, unless an older run waits. */
  lemma {:induction false} EnqueuedStartIsInvoked(s: Admission, id: RunId, listing: seq<RunId>,
                                                  prefix: RunId -> Prefix)
    requires Lists(listing, s.runs) && |Occupied(s)| < s.cap
    requires id in s.runs && s.runs[id].status == Queued && id !in s.launching
    requires forall x :: x in s.runs && x != id && x in s.pending && s.runs[x].status == Queued && x !in s.launching ==>
                           s.runs[id].createdAt < s.runs[x].createdAt
    ensures var t := Drain(Enqueue(s, id), listing, prefix);
            |t.started| > |s.started| && t.started[|s.started|] == Launched(id, s.issued)
  {
    hide Drain, Occupied, HasCapacity;
    var queued := Enqueue(s, id);
    EnqueueTakesNothing(s, id);
    CapacityIsOccupancy(queued);
    assert Waiting(queued, id);
    DrainStartsTheOldest(queued, listing, prefix);
  }

  /** A direct admission invokes its start at once. */
  lemma {:induction false} AdmittingStarts(s: Admission, id: RunId, after: Prefix)
    ensures var t := RunAdmitted(s, id, after);
            && t.started == s.started + [Launched(id, s.issued)] && t.issued == s.issued + 1
            && (id in t.launching <==> !after.throws)
            && (id in s.runs ==> id in t.runs && t.runs[id] == Run(after.status, s.runs[id].createdAt))
  {
  }

  /** What a settled launch leaves: no reservation, no registered start, and a slot only for
      a run whose row is running. */
  lemma {:induction false} SettlingEndsTheLaunch(s: Admission, id: RunId)
    ensures var t := Settle(s, id);
            && id !in t.launching && id !in t.pending
            && (id in Occupied(t) <==> id in s.runs && s.runs[id].status == Running)
            && Occupied(t) - {id} == Occupied(s) - {id}
  {
  }

  lemma {:induction false} SettleFrees(s: Admission, id: RunId)
    ensures |Occupied(Settle(s, id))| <= |Occupied(s)|
  {
    SubsetSize(Occupied(Settle(s, id)), Occupied(s));
  }

  lemma {:induction false} EnqueueTakesNothing(s: Admission, id: RunId)
    ensures Occupied(Enqueue(s, id)) == Occupied(s)
  {
  }

  /** One step keeps the cap exactly when it is covered. */
  lemma {:induction false} StepKeepsCapacity(s: Admission, a: Action)
    requires |Occupied(s)| <= s.cap
    ensures |Occupied(Apply(s, a))| <= s.cap <==> Covered(s, a)
  {
    hide Drained, SortBy, QueuedOf, HasCapacity, Occupied;
    match a
    case EnqueueRun(id) =>
      EnqueueTakesNothing(s, id);
    case DrainQueue(listing, prefix) =>
      DrainKeepsCapacity(s, Queue(s, listing), prefix);
    case AdmitRun(id, after) =>
      AdmitKeepsCapacity(s, id, after);
    case SettleLaunch(id) =>
      SettleFrees(s, id);
    case ChangeRow(id, row) =>
      ChangeKeepsCapacity(s, id, row);
  }

  lemma {:induction false} DrainKeepsCap(s: Admission, queue: seq<RunId>, prefix: RunId -> Prefix)
    ensures Drained(s, queue, prefix).cap == s.cap
    decreases |queue|
  {
    if queue == [] || !HasCapacity(s) {
    } else if !IsEligible(s, queue[0]) {
      DrainKeepsCap(s, queue[1..], prefix);
    } else {
      DrainKeepsCap(Launch(s, queue[0], s.pending[queue[0]], prefix(queue[0])), queue[1..], prefix);
    }
  }

  /** The cap held after each of the first n steps. */
  ghost predicate WithinCap(s: Admission, actions: seq<Action>, n: nat)
    requires n <= |actions|
  {
    forall i :: 0 <= i <= n ==> |Occupied(After(s, actions, i))| <= s.cap
  }

  lemma {:induction false} AfterStep(s: Admission, actions: seq<Action>, n: nat)
    requires 0 < n <= |actions|
    ensures After(s, actions, n) == Apply(After(s, actions, n - 1), actions[n - 1])
  {
    assert actions[..n][..n - 1] == actions[..n - 1];
  }

  lemma {:induction false} NothingDone(s: Admission, actions: seq<Action>)
    ensures After(s, actions, 0) == s
  {
  }

  lemma {:induction false} OneMoreState(s: Admission, actions: seq<Action>, n: nat)
    requires 0 < n <= |actions|
    ensures WithinCap(s, actions, n) <==> WithinCap(s, actions, n - 1) && |Occupied(After(s, actions, n))| <= s.cap
    ensures WithinCap(s, actions, n - 1) ==> |Occupied(After(s, actions, n - 1))| <= s.cap
    ensures AllCovered(s, actions, n)
            <==> AllCovered(s, actions, n - 1) && Covered(After(s, actions, n - 1), actions[n - 1])
  {
    hide Occupied, Covered, After;
  }

  lemma {:induction false} CapKept(s: Admission, actions: seq<Action>, n: nat)
    requires |Occupied(s)| <= s.cap && n <= |actions|
    ensures WithinCap(s, actions, n) <==> AllCovered(s, actions, n)
    ensures After(s, actions, n).cap == s.cap
  {
    hide Occupied, Covered, Apply, After;
    if n == 0 {
      NothingDone(s, actions);
    } else {
      hide WithinCap, AllCovered;
      CapKept(s, actions, n - 1);
      AfterStep(s, actions, n);
      OneMoreState(s, actions, n);
      var t := After(s, actions, n - 1);
      StepKeepsCap(t, actions[n - 1]);
      if |Occupied(t)| <= s.cap {
        StepKeepsCapacity(t, actions[n - 1]);
      }
    }
  }

  lemma {:induction false} StepKeepsCap(s: Admission, a: Action)
    ensures Apply(s, a).cap == s.cap
  {
    hide Drained;
    if a.DrainQueue? {
      DrainKeepsCap(s, Queue(s, a.listing), a.prefix);
    }
  }

  /** Capacity safety: over an interleaving of enqueues, drains, direct admissions,
      settlements and row changes no more than `cap` runs ever hold a slot exactly when each
      admission and row change that gives a run a slot is covered. */
  lemma {:induction false} CapacitySafety(s: Admission, actions: seq<Action>)
    requires |Occupied(s)| <= s.cap
    ensures WithinCap(s, actions, |actions|) <==> AllCovered(s, actions, |actions|)
    ensures AllCovered(s, actions, |actions|) ==> |RunningIds(Perform(s, actions))| <= s.cap == Perform(s, actions).cap
  {
    CapKept(s, actions, |actions|);
    assert actions[..|actions|] == actions;
    assert After(s, actions, |actions|) == Perform(s, actions);
    hide Perform, After, Covered;
    SubsetSize(RunningIds(Perform(s, actions)), Occupied(Perform(s, actions)));
  }

  // ---------- the lives of the runs ----------

  /** What becomes of a run the engine starts or queues. Its row is inserted as running only
      while there is capacity, and turns running only while its launch is in flight and it
      was queued; once a launched run has ended it stays ended. `runAdmitted` is called for
      a run whose row is running. */
  ghost predicate FollowsLife(s: Admission, a: Action) {
    match a
    case AdmitRun(id, _) => id in s.runs && s.runs[id].status == Running
    case ChangeRow(id, row) =>
      if row.status == Running then
        if id in s.runs then s.runs[id].status == Running || (s.runs[id].status == Queued && id in s.launching)
        else HasCapacity(s)
      else id in s.launching && id in s.runs && IsSettledStatus(s.runs[id].status) ==> IsSettledStatus(row.status)
    case _ => true
  }

  /** Runs that live like that keep the cap, in every interleaving. */
  lemma {:induction false} CapacityOverLives(s: Admission, actions: seq<Action>)
    requires |Occupied(s)| <= s.cap
    requires forall i :: 0 <= i < |actions| ==> FollowsLife(After(s, actions, i), actions[i])
    ensures WithinCap(s, actions, |actions|)
  {
    hide After, Covered, FollowsLife;
    forall i | 0 <= i < |actions| ensures Covered(After(s, actions, i), actions[i]) {
      LifeIsCovered(After(s, actions, i), actions[i]);
    }
    CapacitySafety(s, actions);
  }

  lemma {:induction false} LifeIsCovered(s: Admission, a: Action)
    requires FollowsLife(s, a)
    ensures Covered(s, a)
  {
    hide HasCapacity;
  }

  /** A run that is resumed directly does not live like that: its row says blocked or failed
      until the resume, after it has waited, turns it running. Till then it holds no slot,
      so two resumes that each found capacity can run under a cap of one. */
  lemma {:induction false} TwoResumesCanExceedTheCap(a: RunId, b: RunId)
    requires a != b
    ensures var blocked, running := Run(Blocked, 0), Run(Running, 0);
            var s := Admission(1, map[a := blocked, b := blocked], map[], {}, [], 0);
            var s1 := Apply(s, AdmitRun(a, Prefix(Blocked, false)));
            var s2 := Apply(s1, AdmitRun(b, Prefix(Blocked, false)));
            var s4 := Apply(Apply(s2, ChangeRow(a, running)), ChangeRow(b, running));
            && HasCapacity(s) && HasCapacity(s1)
            && |RunningIds(s4)| == 2 > s4.cap
  {
    var blocked, running := Run(Blocked, 0), Run(Running, 0);
    var s := Admission(1, map[a := blocked, b := blocked], map[], {}, [], 0);
    var s1 := Apply(s, AdmitRun(a, Prefix(Blocked, false)));
    var s2 := Apply(s1, AdmitRun(b, Prefix(Blocked, false)));
    var s4 := Apply(Apply(s2, ChangeRow(a, running)), ChangeRow(b, running));
    assert RunningIds(s) == {} && Reservations(s) == {};
    assert RunningIds(s1) == {} && Reservations(s1) == {};
    assert RunningIds(s4) == {a, b};
  }

  // ---------- every start is invoked at most once ----------

  /** Started tokens are distinct and were handed out, and a token that is still registered
      after it was started is one whose launch is still in flight. */
  ghost predicate SingleShot(s: Admission) {
    && (forall i, j :: 0 <= i < j < |s.started| ==> s.started[i].token != s.started[j].token)
    && (forall i :: 0 <= i < |s.started| ==> s.started[i].token < s.issued)
    && (forall id :: id in s.pending ==> s.pending[id] < s.issued)
    && (forall id, id2 :: id in s.pending && id2 in s.pending && id != id2 ==> s.pending[id] != s.pending[id2])
    && (forall id, i :: id in s.pending && 0 <= i < |s.started| && s.started[i].token == s.pending[id] ==> id in s.launching)
  }

  lemma {:induction false} DrainKeepsSingleShot(s: Admission, queue: seq<RunId>, prefix: RunId -> Prefix)
    requires SingleShot(s)
    ensures SingleShot(Drained(s, queue, prefix))
    decreases |queue|
  {
    hide HasCapacity;
    if queue == [] || !HasCapacity(s) {
    } else if !IsEligible(s, queue[0]) {
      DrainKeepsSingleShot(s, queue[1..], prefix);
    } else {
      DrainKeepsSingleShot(Launch(s, queue[0], s.pending[queue[0]], prefix(queue[0])), queue[1..], prefix);
    }
  }

  lemma {:induction false} AdmitKeepsSingleShot(s: Admission, id: RunId, after: Prefix)
    requires SingleShot(s)
    ensures SingleShot(RunAdmitted(s, id, after))
  {
  }

  lemma {:induction false} EnqueueKeepsSingleShot(s: Admission, id: RunId)
    requires SingleShot(s)
    ensures SingleShot(Enqueue(s, id))
  {
  }

  lemma {:induction false} SettleKeepsSingleShot(s: Admission, id: RunId)
    requires SingleShot(s)
    ensures SingleShot(Settle(s, id))
  {
  }

  lemma {:induction false} StepKeepsSingleShot(s: Admission, a: Action)
    requires SingleShot(s)
    ensures SingleShot(Apply(s, a))
  {
    hide SingleShot, Drained, RunAdmitted, Settle, Enqueue;
    match a
    case EnqueueRun(id) => EnqueueKeepsSingleShot(s, id);
    case DrainQueue(listing, prefix) => DrainKeepsSingleShot(s, Queue(s, listing), prefix);
    case AdmitRun(id, after) => AdmitKeepsSingleShot(s, id, after);
    case SettleLaunch(id) => SettleKeepsSingleShot(s, id);
    case ChangeRow(id, row) => RowKeepsSingleShot(s, id, row);
  }

  lemma {:induction false} RowKeepsSingleShot(s: Admission, id: RunId, row: Run)
    requires SingleShot(s)
    ensures SingleShot(s.(runs := s.runs[id := row]))
  {
  }

  /** Over every interleaving at all, even with ids enqueued again or admitted directly
      while they are queued, each start handed to the controller is invoked at most once. */
  lemma {:induction false} StartsAreSingleShot(s: Admission, actions: seq<Action>)
    requires SingleShot(s)
    ensures SingleShot(Perform(s, actions))
    decreases |actions|
  {
    if actions != [] {
      StartsAreSingleShot(s, actions[..|actions| - 1]);
      StepKeepsSingleShot(Perform(s, actions[..|actions| - 1]), actions[|actions| - 1]);
    }
  }

  // ---------- starts that are dropped ----------

  ghost predicate NotStarted(s: Admission, token: StartToken) {
    forall i :: 0 <= i < |s.started| ==> s.started[i].token != token
  }

  /** Handed over, but neither invoked nor registered any more. */
  ghost predicate IsDropped(s: Admission, token: StartToken) {
    token < s.issued && NotStarted(s, token) && forall id :: id in s.pending ==> s.pending[id] != token
  }

  /** A drain invokes a registered start or leaves it registered. */
  lemma {:induction false} DrainDropsNothing(s: Admission, queue: seq<RunId>, prefix: RunId -> Prefix, id: RunId)
    requires id in s.pending
    ensures var t := Drained(s, queue, prefix);
            (id in t.pending && t.pending[id] == s.pending[id]) || !NotStarted(t, s.pending[id])
    decreases |queue|
  {
    hide HasCapacity;
    if queue == [] || !HasCapacity(s) {
    } else if !IsEligible(s, queue[0]) {
      DrainDropsNothing(s, queue[1..], prefix, id);
    } else {
      var s1 := Launch(s, queue[0], s.pending[queue[0]], prefix(queue[0]));
      if queue[0] == id {
        assert s1.started[|s.started|].token == s.pending[id];
        StartedStays(s1, queue[1..], prefix, |s.started|);
      } else {
        DrainDropsNothing(s1, queue[1..], prefix, id);
      }
    }
  }

  lemma {:induction false} StartedStays(s: Admission, queue: seq<RunId>, prefix: RunId -> Prefix, i: nat)
    requires i < |s.started|
    ensures var t := Drained(s, queue, prefix); i < |t.started| && t.started[i] == s.started[i]
    decreases |queue|
  {
    hide HasCapacity;
    if queue == [] || !HasCapacity(s) {
    } else if !IsEligible(s, queue[0]) {
      StartedStays(s, queue[1..], prefix, i);
    } else {
      StartedStays(Launch(s, queue[0], s.pending[queue[0]], prefix(queue[0])), queue[1..], prefix, i);
    }
  }

  /** The steps that drop the start registered for a run: its run is enqueued again, a launch
      of its run settles, or its run is admitted directly by a start that throws at once. */
  predicate Drops(a: Action, id: RunId) {
    match a
    case EnqueueRun(other) => other == id
    case SettleLaunch(other) => other == id
    case AdmitRun(other, after) => other == id && after.throws
    case DrainQueue(_, _) => false
    case ChangeRow(_, _) => false
  }

  /** A registered start that was not invoked yet is dropped by exactly these steps. So a
      start enqueued while an earlier launch of its run is in flight goes with it. */
  lemma {:induction false} StartIsDroppedWhen(s: Admission, a: Action, id: RunId)
    requires SingleShot(s) && id in s.pending && NotStarted(s, s.pending[id])
    ensures IsDropped(Apply(s, a), s.pending[id]) <==> Drops(a, id)
  {
    var t, token := Apply(s, a), s.pending[id];
    if a.DrainQueue? {
      DrainDropsNothing(s, Queue(s, a.listing), a.prefix, id);
    }
    hide Drained, SortBy, QueuedOf;
    if !Drops(a, id) {
      assert (id in t.pending && t.pending[id] == token) || !NotStarted(t, token);
    }
  }

  /** A run is admitted, its start waits, and it is enqueued again before it ends: the second
      start goes when the first one settles. */
  lemma {:induction false} SecondStartIsDropped(id: RunId)
    ensures var s := Admission(1, map[id := Run(Running, 0)], map[], {}, [], 0);
            var actions := [AdmitRun(id, Prefix(Running, false)), EnqueueRun(id), SettleLaunch(id)];
            IsDropped(Perform(s, actions), 1)
  {
    var s := Admission(1, map[id := Run(Running, 0)], map[], {}, [], 0);
    var actions := [AdmitRun(id, Prefix(Running, false)), EnqueueRun(id), SettleLaunch(id)];
    assert actions[..2][..1] == actions[..1] && actions[..1][..0] == [];
    assert Perform(s, actions[..1]) == Apply(s, actions[0]);
    assert Perform(s, actions[..2]) == Apply(Perform(s, actions[..1]), actions[1]);
    assert Perform(s, actions) == Apply(Perform(s, actions[..2]), actions[2]);
    assert Apply(s, actions[0]).started == [Launched(id, 0)];
  }

  lemma {:induction false} DrainKeepsDropped(s: Admission, queue: seq<RunId>, prefix: RunId -> Prefix,
                                             token: StartToken)
    requires IsDropped(s, token)
    ensures IsDropped(Drained(s, queue, prefix), token)
    decreases |queue|
  {
    hide HasCapacity;
    if queue == [] || !HasCapacity(s) {
    } else if !IsEligible(s, queue[0]) {
      DrainKeepsDropped(s, queue[1..], prefix, token);
    } else {
      DrainKeepsDropped(Launch(s, queue[0], s.pending[queue[0]], prefix(queue[0])), queue[1..], prefix, token);
    }
  }

  /** A dropped start is never invoked. */
  lemma {:induction false} DroppedForGood(s: Admission, actions: seq<Action>, token: StartToken)
    requires IsDropped(s, token)
    ensures IsDropped(Perform(s, actions), token)
    decreases |actions|
  {
    if actions != [] {
      DroppedForGood(s, actions[..|actions| - 1], token);
      var t, a := Perform(s, actions[..|actions| - 1]), actions[|actions| - 1];
      if a.DrainQueue? {
        DrainKeepsDropped(t, Queue(t, a.listing), a.prefix, token);
      }
      hide Drained, SortBy, QueuedOf;
    }
  }

  // ---------- the mutable controller ----------

  class Controller {
    const cap: int
    /** The shared run table; workers change it too. */
    var runs: map<RunId, Run>
    var pending: map<RunId, StartToken>
    var launching: set<RunId>
    var draining: bool
    /** Every start invoked so far, and the number of starts handed over. */
    var started: seq<Launched>
    var issued: nat

    function State(): Admission
      reads this
    {
      Admission(cap, runs, pending, launching, started, issued)
    }

    constructor (cap: int, runs: map<RunId, Run>)
      ensures State() == Admission(cap, runs, map[], {}, [], 0) && SingleShot(State()) && !draining
    {
      this.cap, this.runs := cap, runs;
      pending, launching, draining, started, issued := map[], {}, false, [], 0;
    }

    /** `launch` as far as it goes without waiting. */
    method LaunchStart(id: RunId, token: StartToken, after: Prefix)
      modifies this`launching, this`started, this`runs, this`pending
      ensures State() == Launch(old(State()), id, token, after)
    {
      launching := launching + {id};
      started := started + [Launched(id, token)];
      if id in runs {
        runs := runs[id := runs[id].(status := after.status)];
      }
      if after.throws { SettleStart(id); }
    }

    method SettleStart(id: RunId)
      modifies this`launching, this`pending
      ensures State() == Settle(old(State()), id)
    {
      launching := launching - {id};
      pending := pending - {id};
    }

    method AdmitDirectly(id: RunId, after: Prefix)
      modifies this`launching, this`started, this`runs, this`pending, this`issued
      ensures State() == RunAdmitted(old(State()), id, after)
    {
      issued := issued + 1;
      LaunchStart(id, issued - 1, after);
    }

    method EnqueueStart(id: RunId)
      modifies this`pending, this`issued
      ensures State() == Enqueue(old(State()), id)
    {
      pending := pending[id := issued];
      issued := issued + 1;
    }

    /** The loop over the queued runs; a drain already under way makes this call a no-op. */
    method DrainOnce(listing: seq<RunId>, prefix: RunId -> Prefix)
      modifies this
      ensures State() == (if old(draining) then old(State()) else Drain(old(State()), listing, prefix))
      ensures draining == old(draining)
    {
      if draining { return; }
      draining := true;
      ghost var before := State();
      var queue := SortBy(QueuedOf(runs, listing), AgeKey(runs));
      var i := 0;
      while i < |queue|
        invariant 0 <= i <= |queue| && draining
        invariant Drained(before, queue, prefix) == Drained(State(), queue[i..], prefix)
      {
        if !HasCapacity(State()) { break; }
        var id := queue[i];
        assert queue[i..][0] == id && queue[i..][1..] == queue[i + 1..];
        if id !in launching && id in pending {
          LaunchStart(id, pending[id], prefix(id));
        }
        i := i + 1;
      }
      draining := false;
    }
  }
}
