/** Model of the worktree port allocator (`portAllocator.ts`): a hashed starting point, a
    cyclic probe over the pool, and a table whose ports are unique. */
module PortAllocator {
  import opened Outcomes
  import opened Text

  datatype WorktreePath = WorktreePath(path: string)

  /** A JavaScript string, as its UTF-16 code units. */
  type CodeUnit = n: int | 0 <= n < 0x10000

  type Branch = seq<CodeUnit>

  datatype Pool = Pool(start: nat, end: nat)

  datatype Assignment = Assignment(branch: Branch, port: nat)

  type Table = map<WorktreePath, Assignment>

  datatype AllocatorError = PoolExhausted

  const DEFAULT_POOL := Pool(3200, 3399)

  predicate ValidPool(pool: Pool) { 0 < pool.start <= pool.end }

  function Size(pool: Pool): nat
    requires ValidPool(pool)
    ensures Size(pool) > 0
  {
    pool.end - pool.start + 1
  }

  // ---------- the pool ----------

  /** `/^(\d+)-(\d+)$/` on the trimmed text, falling back to the default pool. */
  function ParsePool(raw: string): (pool: Pool)
    ensures ValidPool(pool)
  {
    var s := Trim(raw);
    var d := IndexOf(s, '-');
    if 0 < d < |s| - 1 && AllDigits(s[..d]) && AllDigits(s[d + 1..]) then
      var start, end := DigitsValue(s[..d]), DigitsValue(s[d + 1..]);
      if start <= 0 || end < start then DEFAULT_POOL else Pool(start, end)
    else DEFAULT_POOL
  }

  /** The workspace file wins when it names a valid pool, else the environment, else the default. */
  function ReadWorkspacePool(config: Option<(int, int)>, env: Option<string>): (pool: Pool)
    ensures ValidPool(pool)
    ensures config.Some? && 0 < config.value.0 <= config.value.1 ==> pool == Pool(config.value.0, config.value.1)
  {
    if config.Some? && config.value.0 > 0 && config.value.1 >= config.value.0 then Pool(config.value.0, config.value.1)
    else if env.Some? && Trim(env.value) != "" then ParsePool(env.value)
    else DEFAULT_POOL
  }

  /** A pool written the way the setting documents it reads back as itself exactly when it
      is a pool at all. */
  lemma {:induction false} WrittenPoolReadsBack(a: nat, b: nat)
    ensures ParsePool(Decimal(a) + "-" + Decimal(b)) == if 0 < a <= b then Pool(a, b) else DEFAULT_POOL
  {
    var s := Decimal(a) + "-" + Decimal(b);
    assert IsDigit(s[0]) && IsDigit(s[|s| - 1]) && s[|Decimal(a)|] == '-';
    TrimKeepsTrimmed(s);
    assert s[..|Decimal(a)|] == Decimal(a) && s[|Decimal(a)| + 1..] == Decimal(b);
    assert forall i :: 0 <= i < |Decimal(a)| ==> s[i] == Decimal(a)[i] && IsDigit(s[i]);
    var d := IndexOf(s, '-');
    assert d == |Decimal(a)|;
    DecimalValue(a);
    DecimalValue(b);
  }

  /** Anything else than two numerals with a dash between them, spaces around them aside,
      reads as the default pool. */
  lemma {:induction false} OnlyPoolsAreRead(raw: string)
    ensures ParsePool(raw) != Pool(3200, 3399) ==>
              exists a, b :: && a != "" && b != "" && AllDigits(a) && AllDigits(b) && Trim(raw) == a + "-" + b
                             && ParsePool(raw) == Pool(DigitsValue(a), DigitsValue(b))
  {
    var s := Trim(raw);
    var d := IndexOf(s, '-');
    if ParsePool(raw) != DEFAULT_POOL {
      assert s == s[..d] + "-" + s[d + 1..];
    }
  }

  /** Without a pool in the workspace file the environment decides, and without a text there
      the default pool does. */
  lemma {:induction false} PoolFallsBack(config: Option<(int, int)>, env: Option<string>)
    requires config.Some? ==> !(0 < config.value.0 <= config.value.1)
    ensures ReadWorkspacePool(config, env)
         == if env.Some? && Trim(env.value) != "" then ParsePool(env.value) else Pool(3200, 3399)
  {
  }

  // ---------- the hash ----------

  /** The ToInt32 conversion of ECMAScript. */
  function ToInt32(x: int): int {
    var m := x % 0x1_0000_0000;
    if m >= 0x8000_0000 then m - 0x1_0000_0000 else m
  }

  /** `codePointAt(i)`: a surrogate pair counts as one code point at its first unit. */
  function CodePointAt(s: Branch, i: nat): nat
    requires i < |s|
  {
    if 0xD800 <= s[i] <= 0xDBFF && i + 1 < |s| && 0xDC00 <= s[i + 1] <= 0xDFFF
    then (s[i] as int - 0xD800) * 0x400 + (s[i + 1] as int - 0xDC00) + 0x10000
    else s[i]
  }

  /** The running value of the hash; only the shift works on 32 bits. */
  function HashOf(s: Branch, n: nat): int
    requires n <= |s|
  {
    if n == 0 then 0
    else var hash := HashOf(s, n - 1); ToInt32(hash * 32) - hash + CodePointAt(s, n - 1)
  }

  function Abs(x: int): nat { if x < 0 then -x else x }

  /** A character outside the 16-bit range is read from its two units, any other from its one. */
  lemma {:induction false} CodePointsAreRead(c: nat, after: Branch)
    requires c <= 0x10FFFF
    ensures c >= 0x10000 ==>
              CodePointAt([0xD800 + (c - 0x10000) / 0x400, 0xDC00 + (c - 0x10000) % 0x400] + after, 0) == c
    ensures c < 0xD800 || 0xDC00 <= c < 0x10000 ==> CodePointAt([c] + after, 0) == c
  {
  }

  /** The polynomial in 31 over the code points. */
  function Polynomial(s: Branch, n: nat): int
    requires n <= |s|
  {
    if n == 0 then 0 else 31 * Polynomial(s, n - 1) + CodePointAt(s, n - 1)
  }

  lemma {:induction false} ToInt32IsCongruent(x: int)
    ensures exists q: int :: ToInt32(x) == x + q * 0x1_0000_0000
  {
    var q := x / 0x1_0000_0000;
    assert x == q * 0x1_0000_0000 + x % 0x1_0000_0000;
    assert ToInt32(x) == x + (-q) * 0x1_0000_0000 || ToInt32(x) == x + (-q - 1) * 0x1_0000_0000;
  }

  /** However the shift wraps around, the hash is the polynomial modulo 2^32. */
  lemma {:induction false} HashIsThePolynomial(s: Branch, n: nat) returns (q: int)
    requires n <= |s|
    ensures HashOf(s, n) == Polynomial(s, n) + q * 0x1_0000_0000
  {
    if n == 0 {
      q := 0;
    } else {
      var p := HashIsThePolynomial(s, n - 1);
      ToInt32IsCongruent(HashOf(s, n - 1) * 32);
      var r: int :| ToInt32(HashOf(s, n - 1) * 32) == HashOf(s, n - 1) * 32 + r * 0x1_0000_0000;
      q := 31 * p + r;
    }
  }

  const STEP_BOUND: int := 0x8000_0000 + 0x10FFFF
  const MAX_SAFE_INTEGER: int := 0x1F_FFFF_FFFF_FFFF

  /** The hash grows at most linearly, although it is never cut to 32 bits. */
  lemma {:induction false} HashIsBounded(s: Branch, n: nat)
    requires n <= |s|
    ensures Abs(HashOf(s, n)) <= n * STEP_BOUND
  {
    if n > 0 {
      HashIsBounded(s, n - 1);
      assert -0x8000_0000 <= ToInt32(HashOf(s, n - 1) * 32) < 0x8000_0000;
      assert 0 <= CodePointAt(s, n - 1) <= 0x10FFFF;
    }
  }

  /** For branch names up to four million code units every value the loop computes, shifts
      included, is an integer a double holds exactly. */
  lemma {:induction false} HashStaysExact(s: Branch, n: nat)
    requires 0 < n <= |s| && n <= 4_000_000
    ensures Abs(HashOf(s, n)) <= MAX_SAFE_INTEGER
    ensures Abs(ToInt32(HashOf(s, n - 1) * 32) - HashOf(s, n - 1)) <= MAX_SAFE_INTEGER
  {
    HashIsBounded(s, n);
    HashIsBounded(s, n - 1);
  }

  method HashBranch(branch: Branch) returns (hash: nat)
    ensures hash == Abs(HashOf(branch, |branch|))
  {
    var h := 0;
    for i := 0 to |branch|
      invariant h == HashOf(branch, i)
    {
      h := ToInt32(h * 32) - h + CodePointAt(branch, i);
    }
    hash := if h < 0 then -h else h;
  }

  // ---------- probing ----------

  function ProbedPort(pool: Pool, offset: nat, i: nat): nat
    requires ValidPool(pool)
  {
    pool.start + (offset + i) % Size(pool)
  }

  predicate IsTaken(table: Table, port: nat) { exists path :: path in table && table[path].port == port }

  /** The first free port in probe order from step i. */
  function FirstFree(table: Table, pool: Pool, offset: nat, i: nat): Option<nat>
    requires ValidPool(pool) && i <= Size(pool)
    decreases Size(pool) - i
  {
    if i == Size(pool) then None
    else if !IsTaken(table, ProbedPort(pool, offset, i)) then Some(ProbedPort(pool, offset, i))
    else FirstFree(table, pool, offset, i + 1)
  }

  /** The port is probed at some step from i on, and every port probed before it is taken. */
  ghost predicate IsFirstProbed(table: Table, pool: Pool, offset: nat, i: nat, port: nat)
    requires ValidPool(pool)
  {
    exists k :: i <= k < Size(pool) && port == ProbedPort(pool, offset, k)
                && forall j :: i <= j < k ==> IsTaken(table, ProbedPort(pool, offset, j))
  }

  lemma {:induction false} FirstFreeIsFirst(table: Table, pool: Pool, offset: nat, i: nat)
    requires ValidPool(pool) && i <= Size(pool)
    ensures match FirstFree(table, pool, offset, i)
            case None => forall k :: i <= k < Size(pool) ==> IsTaken(table, ProbedPort(pool, offset, k))
            case Some(port) =>
              && !IsTaken(table, port)
              && IsFirstProbed(table, pool, offset, i, port)
    decreases Size(pool) - i
  {
    if i < Size(pool) && IsTaken(table, ProbedPort(pool, offset, i)) {
      FirstFreeIsFirst(table, pool, offset, i + 1);
    }
  }

  /** The probe visits every port of the pool, and nothing else. */
  lemma {:induction false} ProbesCoverThePool(pool: Pool, offset: nat, port: nat)
    requires ValidPool(pool)
    ensures pool.start <= port <= pool.end <==> exists k :: 0 <= k < Size(pool) && ProbedPort(pool, offset, k) == port
  {
    var size := Size(pool);
    if pool.start <= port <= pool.end {
      var want, have := port - pool.start, offset % size;
      var k := if want >= have then want - have else want - have + size;
      ModAfterSteps(offset, k, size);
      assert ProbedPort(pool, offset, k) == port;
    }
  }

  lemma {:induction false} ModAfterSteps(offset: nat, k: nat, size: nat)
    requires 0 < size && k < size
    ensures (offset + k) % size == if offset % size + k < size then offset % size + k else offset % size + k - size
  {
    var r := offset % size;
    assert offset == size * (offset / size) + r;
    if r + k < size {
      ModUnique(offset + k, size, offset / size, r + k);
    } else {
      assert offset + k == size * (offset / size + 1) + (r + k - size);
      ModUnique(offset + k, size, offset / size + 1, r + k - size);
    }
  }

  lemma {:induction false} ModUnique(x: nat, size: nat, q: nat, r: nat)
    requires 0 < size && r < size && x == size * q + r
    ensures x % size == r
  {
    var q', r' := x / size, x % size;
    assert x == size * q' + r';
    assert size * (q' - q) == r - r';
    ProductIsLarge(size, q' - q);
  }

  lemma {:induction false} ProductIsLarge(size: nat, d: int)
    ensures d >= 1 ==> size * d >= size
    ensures d <= -1 ==> size * d + size <= 0
  {
  }

  // ---------- the operations ----------

  function Assigned(table: Table, path: WorktreePath, branch: Branch, pool: Pool): (Table, Outcome<nat, AllocatorError>)
    requires ValidPool(pool)
  {
    if path in table then (table, Ok(table[path].port))
    else
      var port := FirstFree(table, pool, Abs(HashOf(branch, |branch|)) % Size(pool), 0);
      if port.None? then (table, Thrown(PoolExhausted))
      else (table[path := Assignment(branch, port.value)], Ok(port.value))
  }

  function Released(table: Table, path: WorktreePath): Table { table - {path} }

  function Pruned(table: Table, existing: set<WorktreePath>): Table {
    map path | path in table && path in existing :: table[path]
  }

  ghost predicate DistinctPorts(table: Table) {
    forall p, q :: p in table && q in table && p != q ==> table[p].port != table[q].port
  }

  /** Assigning gives a path its old port, else the first free one of the pool in cyclic
      order from the hashed offset; it fails exactly when every port of the pool is taken;
      and live ports stay distinct. */
  lemma {:induction false} AssignIsRight(table: Table, path: WorktreePath, branch: Branch, pool: Pool)
    requires ValidPool(pool) && DistinctPorts(table)
    ensures var (after, r) := Assigned(table, path, branch, pool);
            var offset := Abs(HashOf(branch, |branch|)) % Size(pool);
            && DistinctPorts(after)
            && (path in table ==> after == table && r == Ok(table[path].port))
            && (path !in table ==>
                  && (r.Thrown? <==> forall port :: pool.start <= port <= pool.end ==> IsTaken(table, port))
                  && (r.Thrown? ==> after == table)
                  && (r.Ok? ==>
                        && after == table[path := Assignment(branch, r.value)]
                        && pool.start <= r.value <= pool.end && !IsTaken(table, r.value)
                        && IsFirstProbed(table, pool, offset, 0, r.value)))
  {
    if path !in table {
      var offset := Abs(HashOf(branch, |branch|)) % Size(pool);
      FirstFreeIsFirst(table, pool, offset, 0);
      var (after, r) := Assigned(table, path, branch, pool);
      if r.Thrown? {
        forall port | pool.start <= port <= pool.end ensures IsTaken(table, port) {
          ProbesCoverThePool(pool, offset, port);
        }
      } else {
        ProbesCoverThePool(pool, offset, r.value);
        assert pool.start <= r.value <= pool.end && !IsTaken(table, r.value);
      }
    }
  }

  /** A released port is free again, and nothing else changed: with every other port of the
      pool taken, it is the one the next path gets. */
  lemma {:induction false} ReleasedPortIsFree(table: Table, path: WorktreePath, other: WorktreePath, branch: Branch,
                                              pool: Pool)
    requires DistinctPorts(table) && path in table && ValidPool(pool)
    ensures var after, port := Released(table, path), table[path].port;
            && path !in after && !IsTaken(after, port)
            && (forall p :: p != path ==> (p in after <==> p in table) && (p in table ==> after[p] == table[p]))
            && (other !in after && pool.start <= port <= pool.end
                && (forall q :: pool.start <= q <= pool.end && q != port ==> IsTaken(after, q)) ==>
                  Assigned(after, other, branch, pool) == (after[other := Assignment(branch, port)], Ok(port)))
  {
    var after, port := Released(table, path), table[path].port;
    assert DistinctPorts(after);
    AssignIsRight(after, other, branch, pool);
  }

  /** Pruning keeps exactly the rows whose directory is there, and frees the other ports. */
  lemma {:induction false} PrunedPortsAreFree(table: Table, existing: set<WorktreePath>, path: WorktreePath)
    requires DistinctPorts(table) && path in table
    ensures var after := Pruned(table, existing);
            && after.Keys == table.Keys * existing
            && (path in existing ==> after[path] == table[path])
            && (path !in existing ==> !IsTaken(after, table[path].port))
  {
  }

  // ---------- whole runs ----------

  datatype Operation =
    | Assign(path: WorktreePath, branch: Branch, pool: Pool)
    | Release(path: WorktreePath)
    | Prune(existing: set<WorktreePath>)

  function AfterOperation(table: Table, op: Operation): Table {
    match op
    case Assign(path, branch, pool) => if ValidPool(pool) then Assigned(table, path, branch, pool).0 else table
    case Release(path) => Released(table, path)
    case Prune(existing) => Pruned(table, existing)
  }

  function AfterAll(table: Table, ops: seq<Operation>): Table {
    if ops == [] then table else AfterOperation(AfterAll(table, ops[..|ops| - 1]), ops[|ops| - 1])
  }

  /** Over any sequence of operations live ports stay pairwise distinct. */
  lemma {:induction false} PortsStayDistinct(table: Table, ops: seq<Operation>)
    requires DistinctPorts(table)
    ensures DistinctPorts(AfterAll(table, ops))
    decreases |ops|
  {
    if ops != [] {
      PortsStayDistinct(table, ops[..|ops| - 1]);
      var last := ops[|ops| - 1];
      if last.Assign? && ValidPool(last.pool) {
        AssignIsRight(AfterAll(table, ops[..|ops| - 1]), last.path, last.branch, last.pool);
      }
    }
  }

  predicate Drops(op: Operation, path: WorktreePath) {
    match op
    case Assign(_, _, _) => false
    case Release(p) => p == path
    case Prune(existing) => path !in existing
  }

  /** A path keeps its port until it is released or its directory is gone. */
  lemma {:induction false} PathKeepsItsPort(table: Table, ops: seq<Operation>, path: WorktreePath)
    requires path in table && forall i :: 0 <= i < |ops| ==> !Drops(ops[i], path)
    ensures path in AfterAll(table, ops) && AfterAll(table, ops)[path] == table[path]
    decreases |ops|
  {
    if ops != [] {
      PathKeepsItsPort(table, ops[..|ops| - 1], path);
    }
  }

  // ---------- the table in place ----------

  class AssignmentTable {
    var rows: Table

    /** The INSERT under the unique constraint on the port. */
    method TryInsert(path: WorktreePath, branch: Branch, port: nat) returns (ok: bool)
      requires path !in rows
      modifies this
      ensures ok == !IsTaken(old(rows), port)
      ensures rows == if ok then old(rows)[path := Assignment(branch, port)] else old(rows)
    {
      ok := !IsTaken(rows, port);
      if ok { rows := rows[path := Assignment(branch, port)]; }
    }

    method AssignPort(path: WorktreePath, branch: Branch, pool: Pool) returns (r: Outcome<nat, AllocatorError>)
      requires ValidPool(pool)
      modifies this
      ensures (rows, r) == Assigned(old(rows), path, branch, pool)
    {
      if path in rows { return Ok(rows[path].port); }
      var size := Size(pool);
      var hash := HashBranch(branch);
      var offset := hash % size;
      for i := 0 to size
        invariant rows == old(rows)
        invariant FirstFree(rows, pool, offset, 0) == FirstFree(rows, pool, offset, i)
      {
        var port := pool.start + (offset + i) % size;
        var ok := TryInsert(path, branch, port);
        if ok { return Ok(port); }
      }
      return Thrown(PoolExhausted);
    }

    method ReleasePort(path: WorktreePath)
      modifies this
      ensures rows == Released(old(rows), path)
    {
      rows := rows - {path};
    }

    method PruneMissing(existing: set<WorktreePath>) returns (removed: nat)
      modifies this
      ensures rows == Pruned(old(rows), existing)
      ensures removed == |old(rows).Keys - existing|
    {
      removed := 0;
      var todo := rows.Keys;
      ghost var all := rows;
      ghost var gone: set<WorktreePath> := {};
      while todo != {}
        invariant todo <= all.Keys
        invariant gone == (all.Keys - todo) - existing
        invariant rows == all - gone && removed == |gone|
        decreases todo
      {
        var path :| path in todo;
        if path !in existing {
          RemoveOneMore(all, gone, path);
          rows := rows - {path};
          removed := removed + 1;
          gone := gone + {path};
        }
        todo := todo - {path};
      }
      assert gone == all.Keys - existing;
      PrunedIsTheRest(all, existing);
    }
  }

  lemma {:induction false} RemoveOneMore(all: Table, gone: set<WorktreePath>, path: WorktreePath)
    ensures (all - gone) - {path} == all - (gone + {path})
  {
  }

  lemma {:induction false} PrunedIsTheRest(all: Table, existing: set<WorktreePath>)
    ensures all - (all.Keys - existing) == Pruned(all, existing)
  {
  }
}
