/**
 The migration engine (framework/database/migrator.go, migration_revert.go) over an abstract schema.

 The history table is kept in id order. What the database answers (lock, reads, Up, Down, insert, delete) is an
 input of every command, so a statement about all answers is a statement about all failures; a refused
 transaction leaves no trace.
 */
module MigrationEngine {
  import opened MigrationVersion
  import opened Wrappers

  /** What the migration of each name does; the code behind a name never changes. */
  datatype Code<!S> = Code(up: (string, S) -> S, down: (string, S) -> S, hasDown: string -> bool)

  ghost predicate Invertible<S(!new)>(code: Code<S>) {
    forall n, s :: code.hasDown(n) ==> code.down(n, code.up(n, s)) == s
  }

  /**
   What the database answers to one command: `read` and `reread` are its first and second look at the table,
   `sums` the reading and checking of what has run, `batchQuery` the query for the highest batch, `downs` and
   `ups` how many Down and Up transactions go through before one is refused.
   */
  datatype Answers = Answers(locked: bool, read: bool, reread: bool, baseline: bool, sums: bool, batchQuery: bool,
                             downs: nat, ups: nat)

  function Least(a: nat, b: nat): nat {
    if a < b then a else b
  }

  datatype Record = Record(id: nat, name: string, batch: int)

  /** The schema after the Up of each name, in order. */
  function Fold<S>(code: Code<S>, names: seq<string>, base: S): S {
    if names == [] then base
    else code.up(names[|names| - 1], Fold(code, names[..|names| - 1], base))
  }

  function Names(h: seq<Record>): (ns: seq<string>)
    ensures |ns| == |h|
    ensures forall i | 0 <= i < |h| :: ns[i] == h[i].name
  {
    if h == [] then [] else Names(h[..|h| - 1]) + [h[|h| - 1].name]
  }

  predicate Distinct(ns: seq<string>) {
    forall i, j | 0 <= i < j < |ns| :: ns[i] != ns[j]
  }

  predicate AllVersioned(ns: seq<string>) {
    forall i | 0 <= i < |ns| :: Versioned(ns[i])
  }

  predicate Ascending(ns: seq<string>) {
    forall i, j | 0 <= i < j < |ns| :: NameLess(ns[i], ns[j])
  }

  function Filter(ns: seq<string>, keep: string -> bool): (r: seq<string>)
    ensures forall n :: n in r <==> n in ns && keep(n)
  {
    if ns == [] then []
    else Filter(ns[..|ns| - 1], keep) + if keep(ns[|ns| - 1]) then [ns[|ns| - 1]] else []
  }

  lemma {:induction false} FilterDistinct(ns: seq<string>, keep: string -> bool)
    requires Distinct(ns)
    ensures Distinct(Filter(ns, keep))
  {
    if ns != [] {
      FilterDistinct(ns[..|ns| - 1], keep);
    }
  }

  lemma {:induction false} FilterNone(ns: seq<string>, keep: string -> bool)
    requires forall n | n in ns :: !keep(n)
    ensures Filter(ns, keep) == []
  {
    if ns != [] {
      FilterNone(ns[..|ns| - 1], keep);
      assert ns[|ns| - 1] in ns;
    }
  }

  lemma FilterSome(ns: seq<string>, keep: string -> bool)
    requires ns != [] && keep(ns[|ns| - 1])
    ensures Filter(ns, keep) != []
  {
  }

  /** Registered names that the history does not have. */
  function Pending(registered: seq<string>, executed: seq<string>): seq<string> {
    Filter(registered, n => n !in executed)
  }

  /** Registered names that a baseline records. */
  function BaselineNames(registered: seq<string>, version: string): seq<string> {
    Filter(registered, n => IsVersionLTE(n, version))
  }

  // ---------------------------------------------------------------------------------------------
  // Sorting by name.

  function Insert(n: string, ns: seq<string>): seq<string> {
    if ns == [] then [n]
    else if NameLess(n, ns[0]) then [n] + ns
    else [ns[0]] + Insert(n, ns[1..])
  }

  /** The result of `sort.Slice` with `compareMigrationNames`. */
  function Sorted(ns: seq<string>): seq<string> {
    if ns == [] then [] else Insert(ns[0], Sorted(ns[1..]))
  }

  lemma {:induction false} InsertKeepsOrder(n: string, ns: seq<string>)
    requires Versioned(n) && AllVersioned(ns) && Ascending(ns) && n !in ns
    ensures Ascending(Insert(n, ns)) && AllVersioned(Insert(n, ns))
    ensures forall x :: x in Insert(n, ns) <==> x == n || x in ns
  {
    if ns != [] {
      if NameLess(n, ns[0]) {
        forall j | 0 < j < |ns| ensures NameLess(n, ns[j]) {
          NameOrder(n, ns[0], ns[j]);
        }
      } else {
        NameOrder(n, ns[0], n);
        InsertKeepsOrder(n, ns[1..]);
        var r := Insert(n, ns[1..]);
        forall j | 0 <= j < |r| ensures NameLess(ns[0], r[j]) {
          assert r[j] in r;
          if r[j] != n {
            var k :| 0 <= k < |ns[1..]| && ns[1..][k] == r[j];
            assert ns[k + 1] == r[j];
          }
        }
      }
    }
  }

  /** Sorting distinct versioned names gives the same names in strictly ascending order. */
  lemma {:induction false} SortedOrders(ns: seq<string>)
    requires AllVersioned(ns) && Distinct(ns)
    ensures Ascending(Sorted(ns)) && AllVersioned(Sorted(ns))
    ensures forall x :: x in Sorted(ns) <==> x in ns
  {
    if ns != [] {
      SortedOrders(ns[1..]);
      InsertKeepsOrder(ns[0], Sorted(ns[1..]));
    }
  }

  lemma AscendingMeansDistinct(ns: seq<string>)
    requires Ascending(ns) && AllVersioned(ns)
    ensures Distinct(ns)
  {
    forall i, j | 0 <= i < j < |ns| ensures ns[i] != ns[j] {
      NameOrder(ns[i], ns[i], ns[i]);
    }
  }

  lemma EmptyTogether(a: seq<string>, b: seq<string>)
    requires forall x :: x in a <==> x in b
    ensures a == [] <==> b == []
  {
    if a != [] {
      assert a[0] in a;
    }
    if b != [] {
      assert b[0] in b;
    }
  }

  /** Names that ascend are determined by their set: there is one sorted order. */
  lemma {:induction false} AscendingUnique(a: seq<string>, b: seq<string>)
    requires Ascending(a) && Ascending(b) && AllVersioned(a) && AllVersioned(b)
    requires forall x :: x in a <==> x in b
    ensures a == b
  {
    EmptyTogether(a, b);
    if a != [] {
      assert a[0] in a && a[0] in b;
      assert b[0] in b && b[0] in a;
      var i :| 0 <= i < |b| && b[i] == a[0];
      var j :| 0 <= j < |a| && a[j] == b[0];
      NameOrder(a[0], b[0], a[0]);
      assert a[0] == b[0];
      AscendingMeansDistinct(a);
      AscendingMeansDistinct(b);
      forall x ensures x in a[1..] <==> x in b[1..] {
        assert x in a <==> x == a[0] || x in a[1..];
        assert x in b <==> x == b[0] || x in b[1..];
      }
      AscendingUnique(a[1..], b[1..]);
    }
  }

  // ---------------------------------------------------------------------------------------------
  // Batches.

  /** Batches never decrease with id. */
  predicate BatchesOk(h: seq<Record>) {
    forall i, j | 0 <= i < j < |h| :: h[i].batch <= h[j].batch
  }

  predicate BatchesPositive(h: seq<Record>) {
    forall i | 0 <= i < |h| :: h[i].batch >= 1
  }

  /** The highest batch, or 0. */
  function MaxBatch(h: seq<Record>): (m: int)
    ensures m >= 0
    ensures forall i | 0 <= i < |h| :: h[i].batch <= m
  {
    if h == [] then 0
    else
      var m := MaxBatch(h[..|h| - 1]);
      if h[|h| - 1].batch > m then h[|h| - 1].batch else m
  }

  lemma {:induction false} MaxBatchIsTaken(h: seq<Record>) returns (i: nat)
    requires h != [] && BatchesPositive(h)
    ensures i < |h| && h[i].batch == MaxBatch(h)
  {
    if |h| == 1 || h[|h| - 1].batch > MaxBatch(h[..|h| - 1]) {
      i := |h| - 1;
    } else {
      i := MaxBatchIsTaken(h[..|h| - 1]);
    }
  }

  function LastBatch(h: seq<Record>): int {
    if h == [] then 0 else h[|h| - 1].batch
  }

  lemma MaxBatchIsLast(h: seq<Record>)
    requires BatchesOk(h) && BatchesPositive(h)
    ensures MaxBatch(h) == LastBatch(h)
  {
    if h != [] {
      var i := MaxBatchIsTaken(h);
      assert h[i].batch <= h[|h| - 1].batch;
    }
  }

  /** The batch of the next rows. The source ignores the error of the query for the highest, and then goes on with 1. */
  function NextBatch(h: seq<Record>, queried: bool): (batch: int)
    ensures batch >= 1
  {
    if queried then MaxBatch(h) + 1 else 1
  }

  /** How many rows of the history, from its end, `getMigrationsToRevert` picks. */
  function RevertCount(h: seq<Record>, steps: int): (k: nat)
    ensures k <= |h|
  {
    if steps > 0 then if steps > |h| then |h| else steps
    else if h == [] then 0 else TailOfBatch(h, h[|h| - 1].batch)
  }

  function TailOfBatch(h: seq<Record>, batch: int): (k: nat)
    ensures k <= |h|
    ensures forall i | |h| - k <= i < |h| :: h[i].batch == batch
    ensures k < |h| ==> h[|h| - k - 1].batch != batch
  {
    if h == [] || h[|h| - 1].batch != batch then 0 else 1 + TailOfBatch(h[..|h| - 1], batch)
  }

  /** Behind a row of the highest batch there are only such rows. */
  predicate HighestIsLast(h: seq<Record>) {
    forall i, j | 0 <= i < j < |h| && h[i].batch == MaxBatch(h) :: h[j].batch == MaxBatch(h)
  }

  /** The rows picked by a rollback without steps are those of the highest batch. */
  predicate PicksHighest(h: seq<Record>) {
    forall i | 0 <= i < |h| :: i >= |h| - RevertCount(h, 0) <==> h[i].batch == MaxBatch(h)
  }

  /** A rollback without steps picks exactly the highest batch if and only if no lower batch comes after it. */
  lemma LastBatchIsHighest(h: seq<Record>)
    requires BatchesPositive(h)
    ensures PicksHighest(h) <==> HighestIsLast(h)
  {
    if h != [] {
      var top := MaxBatchIsTaken(h);
      var k := RevertCount(h, 0);
      if HighestIsLast(h) {
        assert h[|h| - 1].batch == MaxBatch(h) by {
          assert top < |h| - 1 ==> h[|h| - 1].batch == MaxBatch(h);
        }
        forall i | 0 <= i < |h| ensures i >= |h| - k <==> h[i].batch == MaxBatch(h) {
          if i < |h| - k {
            assert h[|h| - k - 1].batch != MaxBatch(h);
          }
        }
      }
    }
  }

  /** Batches in order are enough for that. */
  lemma OrderMeansHighestIsLast(h: seq<Record>)
    requires BatchesOk(h)
    ensures HighestIsLast(h)
  {
  }

  /** New rows keep the batches in order if and only if the highest batch was asked for, or is at most 1. */
  lemma NewRowsInOrder(h: seq<Record>, names: seq<string>, queried: bool, lastId: nat)
    requires BatchesOk(h) && BatchesPositive(h) && names != []
    ensures BatchesOk(h + Rows(names, NextBatch(h, queried), lastId)) <==> queried || MaxBatch(h) <= 1
  {
    MaxBatchIsLast(h);
    var all := h + Rows(names, NextBatch(h, queried), lastId);
    if h != [] {
      assert all[|h| - 1] == h[|h| - 1] && all[|h|].batch == NextBatch(h, queried);
    }
  }

  /**
   A rollback without steps picks exactly the rows just added if and only if the highest batch was asked for, or
   the row before them is not of batch 1; otherwise it picks older rows too.
   */
  lemma NewRowsPicked(h: seq<Record>, names: seq<string>, queried: bool, lastId: nat)
    requires names != []
    ensures var k := RevertCount(h + Rows(names, NextBatch(h, queried), lastId), 0);
      k >= |names| && (k == |names| <==> queried || LastBatch(h) != 1)
  {
    var batch := NextBatch(h, queried);
    var all := h + Rows(names, batch, lastId);
    var k := RevertCount(all, 0);
    assert all[|all| - 1].batch == batch;
    TailAtLeast(all, batch, |names|);
    if h != [] {
      assert all[|h| - 1] == h[|h| - 1];
      if h[|h| - 1].batch == batch {
        TailAtLeast(all, batch, |names| + 1);
      } else {
        TailUnique(all, batch, |names|);
      }
    }
  }

  lemma {:induction false} TailAtLeast(h: seq<Record>, batch: int, n: nat)
    requires n <= |h| && forall i | |h| - n <= i < |h| :: h[i].batch == batch
    ensures TailOfBatch(h, batch) >= n
  {
    if n > 0 {
      TailAtLeast(h[..|h| - 1], batch, n - 1);
    }
  }

  /** The failed query at two small histories: a baseline row picked with the new one, and batches out of order. */
  lemma FailedBatchQuery()
    ensures RevertCount([Record(1, "V1__a", 1)] + Rows(["V2__b"], NextBatch([Record(1, "V1__a", 1)], false), 1), 0) == 2
    ensures !BatchesOk([Record(1, "V1__a", 1), Record(2, "V2__b", 2)]
                       + Rows(["V3__c"], NextBatch([Record(1, "V1__a", 1), Record(2, "V2__b", 2)], false), 2))
  {
    var one := [Record(1, "V1__a", 1)];
    NewRowsPicked(one, ["V2__b"], false, 1);
    var two := [Record(1, "V1__a", 1), Record(2, "V2__b", 2)];
    assert two[1].batch <= MaxBatch(two);
    assert BatchesOk(two) && BatchesPositive(two);
    NewRowsInOrder(two, ["V3__c"], false, 2);
  }

  // ---------------------------------------------------------------------------------------------
  // Baseline.

  /**
   A baseline at a version, on an empty history: the names recorded without Up and the names then pending
   split the registered ones at the version, and every pending name is above every recorded one, so the
   order check after a baseline never rejects.
   */
  lemma BaselineSplits(registered: seq<string>, version: string)
    requires AllVersioned(registered) && Distinct(registered) && Versioned(version)
    ensures
      var recorded := BaselineNames(registered, version);
      var pending := Pending(registered, recorded);
      && (forall n | n in registered :: n in recorded <==> !(n in pending))
      && (forall n :: n in recorded <==> n in registered && !NameLess(version, n))
      && (forall n :: n in pending <==> n in registered && NameLess(version, n))
      && (forall p, e | p in pending && e in recorded :: NameLess(e, p) && !NameLess(p, e))
  {
    var recorded := BaselineNames(registered, version);
    var pending := Pending(registered, recorded);
    forall p, e | p in pending && e in recorded ensures NameLess(e, p) && !NameLess(p, e) {
      NameOrder(e, version, p);
      NameOrder(e, p, e);
    }
  }

  /** The rows a baseline is to add to a history. */
  function Baseline(on: bool, h: seq<Record>, registered: seq<string>, version: string): seq<string> {
    if on && h == [] then BaselineNames(registered, version) else []
  }

  lemma BaselineIsFit(registered: seq<string>, version: string)
    requires AllVersioned(registered) && Distinct(registered)
    ensures AllVersioned(BaselineNames(registered, version)) && Distinct(BaselineNames(registered, version))
  {
    var names := BaselineNames(registered, version);
    FilterDistinct(registered, n => IsVersionLTE(n, version));
    forall i | 0 <= i < |names| ensures Versioned(names[i]) {
      assert names[i] in names && names[i] in registered;
    }
  }

  // ---------------------------------------------------------------------------------------------
  // The history table.

  ghost predicate HistoryOk(h: seq<Record>, lastId: nat) {
    && (forall i | 0 <= i < |h| :: Versioned(h[i].name) && h[i].id <= lastId)
    && (forall i, j | 0 <= i < j < |h| :: h[i].id < h[j].id && h[i].name != h[j].name)
    && BatchesPositive(h)
  }

  lemma EmptyHistoryOk(lastId: nat)
    ensures HistoryOk([], lastId)
  {
    hide Versioned;
  }

  /** The rows inserted for `names` when `lastId` is the last id given out. */
  function Rows(names: seq<string>, batch: int, lastId: nat): (h: seq<Record>)
    ensures |h| == |names|
    ensures forall i | 0 <= i < |h| :: h[i] == Record(lastId + 1 + i, names[i], batch)
  {
    if names == [] then []
    else Rows(names[..|names| - 1], batch, lastId) + [Record(lastId + |names|, names[|names| - 1], batch)]
  }

  lemma NamesOfRows(h: seq<Record>, names: seq<string>, batch: int, lastId: nat)
    ensures Names(h + Rows(names, batch, lastId)) == Names(h) + names
  {
  }

  lemma RowsOk(h: seq<Record>, names: seq<string>, batch: int, lastId: nat)
    requires HistoryOk(h, lastId) && AllVersioned(names) && Distinct(names)
    requires forall n | n in names :: n !in Names(h)
    requires batch >= 1
    ensures HistoryOk(h + Rows(names, batch, lastId), lastId + |names|)
  {
    var rows := Rows(names, batch, lastId);
    var all := h + rows;
    forall i, j | 0 <= i < j < |all| ensures all[i].id < all[j].id && all[i].name != all[j].name {
      if i < |h| <= j {
        assert names[j - |h|] in names && Names(h)[i] in Names(h);
      }
    }
  }

  /** One more row. */
  lemma RowsStep(names: seq<string>, i: nat, batch: int, lastId: nat)
    requires i < |names|
    ensures Rows(names[..i + 1], batch, lastId)
      == Rows(names[..i], batch, lastId) + [Record(lastId + i + 1, names[i], batch)]
  {
    assert names[..i + 1][..i] == names[..i];
  }

  lemma {:induction false} FoldConcat<S>(code: Code<S>, a: seq<string>, b: seq<string>, base: S)
    ensures Fold(code, a + b, base) == Fold(code, b, Fold(code, a, base))
  {
    if b == [] {
      assert a + b == a;
    } else {
      assert (a + b)[..|a + b| - 1] == a + b[..|b| - 1];
      FoldConcat(code, a, b[..|b| - 1], base);
    }
  }

  lemma FoldStep<S>(code: Code<S>, names: seq<string>, i: nat, base: S)
    requires i < |names|
    ensures Fold(code, names[..i + 1], base) == code.up(names[i], Fold(code, names[..i], base))
  {
    assert names[..i + 1][..i] == names[..i];
  }

  lemma PrefixFacts(names: seq<string>, k: nat)
    requires k <= |names|
    ensures AllVersioned(names) ==> AllVersioned(names[..k])
    ensures Distinct(names) ==> Distinct(names[..k])
    ensures forall n | n in names[..k] :: n in names
  {
  }

  /** The names `Migrate` adds to the history if nothing fails. */
  function Plan(registered: seq<string>, executed: seq<string>): seq<string> {
    Sorted(Pending(registered, executed))
  }

  lemma PlanMeans(registered: seq<string>, executed: seq<string>)
    ensures Plan(registered, executed) == Sorted(Pending(registered, executed))
    ensures Pending(registered, executed) == [] ==> Plan(registered, executed) == []
  {
  }

  lemma PlanIsFit(registered: seq<string>, executed: seq<string>)
    requires AllVersioned(registered) && Distinct(registered)
    ensures AllVersioned(Plan(registered, executed)) && Distinct(Plan(registered, executed))
    ensures Ascending(Plan(registered, executed))
    ensures forall n :: n in Plan(registered, executed) <==> n in registered && n !in executed
  {
    var pending := Pending(registered, executed);
    FilterDistinct(registered, n => n !in executed);
    forall i | 0 <= i < |pending| ensures Versioned(pending[i]) {
      assert pending[i] in pending && pending[i] in registered;
    }
    SortedOrders(pending);
    AscendingMeansDistinct(Plan(registered, executed));
  }

  lemma PlanIsNew(registered: seq<string>, executed: seq<string>)
    requires AllVersioned(registered) && Distinct(registered)
    ensures AllVersioned(Plan(registered, executed))
    ensures forall n | n in Plan(registered, executed) :: n !in executed
  {
    hide *;
    PlanIsFit(registered, executed);
  }

  /** The history with the rows of a baseline that is due. */
  function AfterBaseline(on: bool, h: seq<Record>, registered: seq<string>, version: string, lastId: nat): seq<Record> {
    h + Rows(Baseline(on, h, registered, version), 1, lastId)
  }

  lemma AfterBaselineOk(on: bool, h: seq<Record>, registered: seq<string>, version: string, lastId: nat)
    requires HistoryOk(h, lastId) && AllVersioned(registered) && Distinct(registered)
    ensures HistoryOk(AfterBaseline(on, h, registered, version, lastId),
      lastId + |Baseline(on, h, registered, version)|)
    ensures Baseline(on, h, registered, version) == [] ==> AfterBaseline(on, h, registered, version, lastId) == h
  {
    if on && h == [] {
      BaselineIsFit(registered, version);
      RowsOk(h, BaselineNames(registered, version), 1, lastId);
    }
    assert h + Rows([], 1, lastId) == h;
  }

  /** The baseline step has been taken: rows recorded if it was due, and nothing run. */
  ghost predicate BaselineDone(on: bool, version: string, registered: seq<string>,
                               h: seq<Record>, lastId: nat, was: bool, h': seq<Record>, lastId': nat, isNow: bool) {
    && h' == AfterBaseline(on, h, registered, version, lastId)
    && lastId' == lastId + |Baseline(on, h, registered, version)|
    && (isNow <==> was || Baseline(on, h, registered, version) != [])
  }

  lemma BaselineDoneFacts(on: bool, version: string, registered: seq<string>,
                          h: seq<Record>, lastId: nat, was: bool, h': seq<Record>, lastId': nat, isNow: bool)
    requires HistoryOk(h, lastId) && AllVersioned(registered) && Distinct(registered)
    requires BaselineDone(on, version, registered, h, lastId, was, h', lastId', isNow)
    ensures HistoryOk(h', lastId')
    ensures !isNow || !on ==> h' == h && (isNow <==> was)
  {
    AfterBaselineOk(on, h, registered, version, lastId);
  }

  /** The order check: every name of `a` is below every name of `b`. */
  ghost predicate Below(a: seq<string>, b: seq<string>) {
    forall p, e | p in b && e in a :: NameLess(e, p)
  }

  lemma BelowIfEmpty(a: seq<string>, b: seq<string>)
    ensures a == [] || b == [] ==> Below(a, b)
  {
  }

  /** A prefix of `pending` has been run: `Up` and row for each name of it, and nothing else. */
  ghost predicate Executed<S(!new)>(code: Code<S>, pending: seq<string>, batch: int,
                              h: seq<Record>, lastId: nat, schema: S, h': seq<Record>, lastId': nat, schema': S) {
    && |h| <= |h'| <= |h| + |pending|
    && var k := |h'| - |h|;
    && h' == h + Rows(pending[..k], batch, lastId)
    && lastId' == lastId + k
    && schema' == Fold(code, pending[..k], schema)
  }

  ghost predicate RanPlan<S(!new)>(code: Code<S>, registered: seq<string>, queried: bool,
                             h: seq<Record>, lastId: nat, schema: S, h': seq<Record>, lastId': nat, schema': S) {
    Executed(code, Plan(registered, Names(h)), NextBatch(h, queried), h, lastId, schema, h', lastId', schema')
  }

  lemma NothingRan<S(!new)>(code: Code<S>, pending: seq<string>, batch: int, h: seq<Record>, lastId: nat, schema: S)
    ensures Executed(code, pending, batch, h, lastId, schema, h, lastId, schema)
  {
    assert h + Rows(pending[..0], batch, lastId) == h;
  }

  lemma PlanRan<S(!new)>(code: Code<S>, registered: seq<string>, queried: bool,
                         h: seq<Record>, lastId: nat, schema: S, h': seq<Record>, lastId': nat, schema': S)
    requires Executed(code, Plan(registered, Names(h)), NextBatch(h, queried), h, lastId, schema, h', lastId', schema')
    ensures RanPlan(code, registered, queried, h, lastId, schema, h', lastId', schema')
    ensures |h| <= |h'|
  {
  }

  lemma NothingPlannedRan<S(!new)>(code: Code<S>, registered: seq<string>, queried: bool, h: seq<Record>, lastId: nat,
                                   schema: S)
    ensures RanPlan(code, registered, queried, h, lastId, schema, h, lastId, schema)
  {
    NothingRan(code, Plan(registered, Names(h)), NextBatch(h, queried), h, lastId, schema);
  }

  lemma ExecutedHistory<S(!new)>(code: Code<S>, names: seq<string>, batch: int,
                           h: seq<Record>, lastId: nat, schema: S, h': seq<Record>, lastId': nat, schema': S)
    requires HistoryOk(h, lastId) && AllVersioned(names) && Distinct(names)
    requires (forall n | n in names :: n !in Names(h)) && batch >= 1
    requires Executed(code, names, batch, h, lastId, schema, h', lastId', schema')
    ensures |h| <= |h'| <= |h| + |names|
    ensures HistoryOk(h', lastId') && Names(h') == Names(h) + names[..|h'| - |h|]
  {
    hide Names, HistoryOk, AllVersioned, Distinct, Fold, Rows;
    var k := |h'| - |h|;
    PrefixFacts(names, k);
    RowsOk(h, names[..k], batch, lastId);
    NamesOfRows(h, names[..k], batch, lastId);
  }

  lemma RanPlanHistory<S(!new)>(code: Code<S>, registered: seq<string>, queried: bool,
                          h: seq<Record>, lastId: nat, schema: S, h': seq<Record>, lastId': nat, schema': S)
    requires HistoryOk(h, lastId) && AllVersioned(registered) && Distinct(registered)
    requires RanPlan(code, registered, queried, h, lastId, schema, h', lastId', schema')
    ensures |h| <= |h'| <= |h| + |Plan(registered, Names(h))|
    ensures HistoryOk(h', lastId') && Names(h') == Names(h) + Plan(registered, Names(h))[..|h'| - |h|]
  {
    hide Names, Plan, NextBatch, AllVersioned, Distinct, Fold, Executed, Ascending;
    PlanIsFit(registered, Names(h));
    ExecutedHistory(code, Plan(registered, Names(h)), NextBatch(h, queried), h, lastId, schema, h', lastId', schema');
  }

  /** The schema follows the history. */
  lemma RanPlanSchema<S(!new)>(code: Code<S>, base: S, registered: seq<string>, queried: bool,
                        h: seq<Record>, lastId: nat, schema: S, h': seq<Record>, lastId': nat, schema': S)
    requires HistoryOk(h, lastId) && AllVersioned(registered) && Distinct(registered)
    requires RanPlan(code, registered, queried, h, lastId, schema, h', lastId', schema')
    requires schema == Fold(code, Names(h), base)
    ensures schema' == Fold(code, Names(h'), base)
  {
    hide Names, Plan, NextBatch, AllVersioned, Distinct, HistoryOk, Ascending, Fold, Rows;
    RanPlanHistory(code, registered, queried, h, lastId, schema, h', lastId', schema');
    FoldConcat(code, Names(h), Plan(registered, Names(h))[..|h'| - |h|], base);
  }

  /** Once the whole plan has run, nothing is pending. */
  lemma RanPlanComplete<S(!new)>(code: Code<S>, registered: seq<string>, queried: bool,
                        h: seq<Record>, lastId: nat, schema: S, h': seq<Record>, lastId': nat, schema': S)
    requires HistoryOk(h, lastId) && AllVersioned(registered) && Distinct(registered)
    requires RanPlan(code, registered, queried, h, lastId, schema, h', lastId', schema')
    requires |h'| == |h| + |Plan(registered, Names(h))|
    ensures Pending(registered, Names(h')) == []
  {
    hide Names, Plan, NextBatch, AllVersioned, Distinct, HistoryOk, Ascending, Fold, Rows, RanPlan;
    var plan := Plan(registered, Names(h));
    RanPlanHistory(code, registered, queried, h, lastId, schema, h', lastId', schema');
    PlanIsFit(registered, Names(h));
    assert plan[..|plan|] == plan;
    FilterNone(registered, n => n !in Names(h'));
  }

  /** If the plan lies above the history, or none of it has run, an ascending history stays ascending. */
  lemma RanPlanAscending<S(!new)>(code: Code<S>, registered: seq<string>, queried: bool,
                        h: seq<Record>, lastId: nat, schema: S, h': seq<Record>, lastId': nat, schema': S)
    requires HistoryOk(h, lastId) && AllVersioned(registered) && Distinct(registered)
    requires RanPlan(code, registered, queried, h, lastId, schema, h', lastId', schema')
    requires Ascending(Names(h)) && (|h'| == |h| || Below(Names(h), Plan(registered, Names(h))))
    ensures Ascending(Names(h'))
  {
    hide Names, Plan, NextBatch, AllVersioned, Distinct, HistoryOk, Ascending, Fold, Rows, Below;
    var plan, k := Plan(registered, Names(h)), |h'| - |h|;
    RanPlanHistory(code, registered, queried, h, lastId, schema, h', lastId', schema');
    PlanIsFit(registered, Names(h));
    if k == 0 {
      assert Names(h) + plan[..0] == Names(h);
    } else {
      AscendingConcat(Names(h), plan, k);
    }
  }

  /** The order check, if it is made. */
  ghost predicate InOrder(check: bool, outOfOrder: bool, registered: seq<string>, h: seq<Record>) {
    !check || outOfOrder || Below(Names(h), Plan(registered, Names(h)))
  }

  lemma InOrderIfNothingPlanned(check: bool, outOfOrder: bool, registered: seq<string>, h: seq<Record>)
    requires Plan(registered, Names(h)) == []
    ensures InOrder(check, outOfOrder, registered, h)
  {
    hide Plan, Names;
  }

  /** After a baseline on an empty history the order check passes. */
  lemma BaselineInOrder(outOfOrder: bool, registered: seq<string>, version: string, lastId: nat)
    requires AllVersioned(registered) && Distinct(registered) && Versioned(version)
    ensures InOrder(true, outOfOrder, registered, AfterBaseline(true, [], registered, version, lastId))
  {
    hide Names, Plan, Versioned, NameLess, FindVersion, Filter;
    var recorded := BaselineNames(registered, version);
    var h1 := AfterBaseline(true, [], registered, version, lastId);
    NamesOfRows([], recorded, 1, lastId);
    EmptyNames();
    EmptyConcat([], recorded);
    BaselineSplits(registered, version);
    PlanIsFit(registered, Names(h1));
    PendingMeans(registered, recorded);
  }

  lemma PendingMeans(registered: seq<string>, executed: seq<string>)
    ensures forall n :: n in Pending(registered, executed) <==> n in registered && n !in executed
  {
  }

  /**
   What `Migrate` does: nothing, or a baseline that is due and then as much of the plan as goes through; `done`
   is whether it reports success.
   */
  ghost predicate Migrated<S(!new)>(code: Code<S>, on: bool, version: string, outOfOrder: bool, a: Answers,
                                    registered: seq<string>, h: seq<Record>, lastId: nat, schema: S, h': seq<Record>,
                                    lastId': nat, schema': S, done: bool) {
    var due := Baseline(on, h, registered, version);
    if !a.locked || !a.read || (due != [] && !a.baseline) then
      h' == h && lastId' == lastId && schema' == schema && !done
    else
      var h1 := AfterBaseline(on, h, registered, version, lastId);
      Planned(code, registered, a.batchQuery, a.sums && InOrder(true, outOfOrder, registered, h1), a.ups,
              h1, lastId + |due|, schema, h', lastId', schema', done)
  }

  /** As much of the plan as goes through has run, or none of it if it may not. */
  ghost predicate Planned<S(!new)>(code: Code<S>, registered: seq<string>, queried: bool, allowed: bool, ups: nat,
                                   h: seq<Record>, lastId: nat, schema: S, h': seq<Record>, lastId': nat, schema': S,
                                   done: bool) {
    var n := |Plan(registered, Names(h))|;
    && RanPlan(code, registered, queried, h, lastId, schema, h', lastId', schema')
    && |h'| == |h| + (if allowed then Least(ups, n) else 0)
    && (done <==> allowed && ups >= n)
  }

  lemma MigratedRan<S(!new)>(code: Code<S>, on: bool, version: string, outOfOrder: bool, a: Answers,
                             registered: seq<string>, h: seq<Record>, lastId: nat, schema: S, was: bool,
                             h1: seq<Record>, lastId1: nat, isNow: bool, h': seq<Record>, lastId': nat, schema': S,
                             done: bool)
    requires BaselineDone(on, version, registered, h, lastId, was, h1, lastId1, isNow)
    requires a.locked && a.read && (a.baseline || Baseline(on, h, registered, version) == [])
    requires Planned(code, registered, a.batchQuery, a.sums && InOrder(true, outOfOrder, registered, h1), a.ups,
                     h1, lastId1, schema, h', lastId', schema', done)
    ensures Migrated(code, on, version, outOfOrder, a, registered, h, lastId, schema, h', lastId', schema', done)
  {
    hide AfterBaseline, Baseline, Planned, InOrder;
  }

  /** Sorted new names above all the old ones keep the history ascending. */
  lemma AscendingConcat(a: seq<string>, b: seq<string>, k: nat)
    requires Ascending(a) && Ascending(b) && k <= |b|
    requires Below(a, b)
    ensures Ascending(a + b[..k])
  {
    forall i, j | 0 <= i < j < |a| + k ensures NameLess((a + b[..k])[i], (a + b[..k])[j]) {
      if i < |a| <= j {
        assert b[j - |a|] in b && a[i] in a;
      }
    }
  }

  ghost predicate Tops(executed: set<string>, p: string) {
    forall e | e in executed :: NameLess(e, p)
  }

  lemma OrderAgainstLatest(executed: set<string>, latest: string, p: string)
    requires Versioned(p) && p !in executed && latest in executed && forall e | e in executed :: Versioned(e)
    requires forall e | e in executed :: e == latest || NameLess(e, latest)
    ensures NameLess(p, latest) <==> !Tops(executed, p)
  {
    NameOrder(p, latest, p);
    NameOrder(latest, p, latest);
    if !NameLess(p, latest) {
      forall e | e in executed ensures NameLess(e, p) {
        NameOrder(e, latest, p);
      }
    }
  }

  lemma BelowMeansTops(h: seq<Record>, executed: set<string>, pending: seq<string>)
    requires forall n :: n in executed <==> n in Names(h)
    ensures Below(Names(h), pending) <==> forall j | 0 <= j < |pending| :: Tops(executed, pending[j])
  {
    if Below(Names(h), pending) {
      forall j | 0 <= j < |pending| ensures Tops(executed, pending[j]) {
        assert pending[j] in pending;
      }
    }
  }

  lemma ExecutedVersioned(h: seq<Record>, lastId: nat, executed: set<string>)
    requires HistoryOk(h, lastId) && forall n :: n in executed <==> n in Names(h)
    ensures forall n | n in executed :: Versioned(n)
  {
  }

  // ---------------------------------------------------------------------------------------------
  // Reverting.

  /** The schema after the Down of each name, from the last to the first. */
  function Unfold<S>(code: Code<S>, names: seq<string>, schema: S): S {
    if names == [] then schema
    else Unfold(code, names[..|names| - 1], code.down(names[|names| - 1], schema))
  }

  /** Running the Downs of `names` takes back what their Ups did. */
  lemma {:induction false} UnfoldUndoesFold<S(!new)>(code: Code<S>, names: seq<string>, s: S)
    requires Invertible(code) && forall i | 0 <= i < |names| :: code.hasDown(names[i])
    ensures Unfold(code, names, Fold(code, names, s)) == s
  {
    if names != [] {
      UnfoldUndoesFold(code, names[..|names| - 1], s);
    }
  }

  /** One more Down: the names from `i` on are reverted after those from `i + 1` on. */
  lemma {:induction false} UnfoldStep<S>(code: Code<S>, names: seq<string>, i: nat, schema: S)
    requires i < |names|
    ensures Unfold(code, names[i..], schema) == code.down(names[i], Unfold(code, names[i + 1..], schema))
  {
    if i + 1 == |names| {
      assert names[i..][..0] == [];
    } else {
      var last := |names| - 1;
      UnfoldStep(code, names[..last], i, code.down(names[last], schema));
      assert names[i..][..|names[i..]| - 1] == names[..last][i..];
      assert names[i + 1..][..|names[i + 1..]| - 1] == names[..last][i + 1..];
    }
  }

  lemma NamesOfPrefix(h: seq<Record>, m: nat)
    requires m <= |h|
    ensures Names(h[..m]) == Names(h)[..m]
  {
  }

  lemma PrefixOk(h: seq<Record>, m: nat, lastId: nat)
    requires m <= |h| && HistoryOk(h, lastId)
    ensures HistoryOk(h[..m], lastId)
  {
  }

  /** DELETE of the row with this id. */
  function Without(h: seq<Record>, id: nat): seq<Record> {
    if h == [] then []
    else Without(h[..|h| - 1], id) + if h[|h| - 1].id == id then [] else [h[|h| - 1]]
  }

  lemma {:induction false} WithoutOther(h: seq<Record>, id: nat)
    requires forall i | 0 <= i < |h| :: h[i].id != id
    ensures Without(h, id) == h
  {
    if h != [] {
      WithoutOther(h[..|h| - 1], id);
    }
  }

  /** Ids ascend, so deleting by the id of the last row cuts the history by one. */
  lemma WithoutLast(h: seq<Record>, lastId: nat)
    requires h != [] && HistoryOk(h, lastId)
    ensures Without(h, h[|h| - 1].id) == h[..|h| - 1]
  {
    WithoutOther(h[..|h| - 1], h[|h| - 1].id);
  }

  /** The rows in descending id order. */
  function Descending(h: seq<Record>): (d: seq<Record>)
    ensures |d| == |h|
  {
    if h == [] then [] else [h[|h| - 1]] + Descending(h[..|h| - 1])
  }

  lemma {:induction false} DescendingAt(h: seq<Record>, i: nat)
    requires i < |h|
    ensures Descending(h)[i] == h[|h| - 1 - i]
  {
    if i > 0 {
      DescendingAt(h[..|h| - 1], i - 1);
    }
  }

  /** The history has been cut to a prefix, and the Downs of the rows cut off have run, last row first. */
  ghost predicate Reverted<S(!new)>(code: Code<S>, registered: seq<string>,
                                    h: seq<Record>, schema: S, h': seq<Record>, schema': S) {
    && |h'| <= |h| && h' == h[..|h'|]
    && schema' == Unfold(code, Names(h)[|h'|..], schema)
    && (forall i | |h'| <= i < |h| :: h[i].name in registered && code.hasDown(h[i].name))
  }

  lemma NothingReverted<S(!new)>(code: Code<S>, registered: seq<string>, h: seq<Record>, schema: S)
    ensures Reverted(code, registered, h, schema, h, schema)
  {
    assert h[..|h|] == h;
  }

  lemma RevertedPrefix<S(!new)>(code: Code<S>, registered: seq<string>, h: seq<Record>, schema: S, h': seq<Record>,
                                schema': S)
    requires Reverted(code, registered, h, schema, h', schema')
    ensures |h'| <= |h| && h' == h[..|h'|]
  {
  }

  lemma RevertedNone<S(!new)>(code: Code<S>, registered: seq<string>, h: seq<Record>, schema: S, h': seq<Record>,
                              schema': S)
    requires Reverted(code, registered, h, schema, h', schema') && |h'| == |h|
    ensures h' == h && schema' == schema
  {
    assert h[..|h|] == h && Names(h)[|h|..] == [];
  }

  lemma RevertedOneMore<S(!new)>(code: Code<S>, registered: seq<string>,
                                 h: seq<Record>, schema: S, h1: seq<Record>, schema1: S)
    requires Reverted(code, registered, h, schema, h1, schema1) && h1 != []
    requires h1[|h1| - 1].name in registered && code.hasDown(h1[|h1| - 1].name)
    ensures Reverted(code, registered, h, schema, h1[..|h1| - 1], code.down(h1[|h1| - 1].name, schema1))
  {
    UnfoldStep(code, Names(h), |h1| - 1, schema);
  }

  /** Reverting takes the schema back to what the remaining rows say. */
  lemma RevertedSchema<S(!new)>(code: Code<S>, registered: seq<string>, base: S,
                                h: seq<Record>, schema: S, h': seq<Record>, schema': S)
    requires Invertible(code) && Reverted(code, registered, h, schema, h', schema')
    requires schema == Fold(code, Names(h), base)
    ensures schema' == Fold(code, Names(h'), base)
  {
    hide Names, Fold, Unfold, Invertible;
    var m := |h'|;
    NamesOfPrefix(h, m);
    assert Names(h) == Names(h)[..m] + Names(h)[m..];
    FoldConcat(code, Names(h)[..m], Names(h)[m..], base);
    UnfoldUndoesFold(code, Names(h)[m..], Fold(code, Names(h)[..m], base));
  }

  /** Reverting keeps the table in order. */
  lemma RevertedHistory<S(!new)>(code: Code<S>, registered: seq<string>,
                                 h: seq<Record>, lastId: nat, schema: S, h': seq<Record>, schema': S)
    requires HistoryOk(h, lastId) && Reverted(code, registered, h, schema, h', schema')
    ensures HistoryOk(h', lastId) && Names(h') == Names(h)[..|h'|]
    ensures Ascending(Names(h)) ==> Ascending(Names(h'))
  {
    PrefixOk(h, |h'|, lastId);
    NamesOfPrefix(h, |h'|);
  }

  lemma {:induction false} TailUnique(h: seq<Record>, batch: int, n: nat)
    requires n <= |h| && forall i | |h| - n <= i < |h| :: h[i].batch == batch
    requires n < |h| ==> h[|h| - n - 1].batch != batch
    ensures TailOfBatch(h, batch) == n
  {
    if n > 0 {
      TailUnique(h[..|h| - 1], batch, n - 1);
    }
  }

  /** How many rows at the front of `executed` have this batch. */
  function HeadOfBatch(executed: seq<Record>, batch: int): (k: nat)
    ensures k <= |executed|
  {
    if executed == [] || executed[0].batch != batch then 0 else 1 + HeadOfBatch(executed[1..], batch)
  }

  lemma HeadMeans(executed: seq<Record>)
    ensures executed != [] ==>
      var k := HeadOfBatch(executed, executed[0].batch);
      && k > 0 && (forall r | r in executed[..k] :: r.batch == executed[0].batch)
      && (k < |executed| ==> executed[k].batch != executed[0].batch)
  {
    if executed != [] {
      HeadAt(executed, executed[0].batch);
    }
  }

  lemma {:induction false} HeadAt(executed: seq<Record>, batch: int)
    ensures var k := HeadOfBatch(executed, batch);
      && (forall i | 0 <= i < k :: executed[i].batch == batch)
      && (k < |executed| ==> executed[k].batch != batch)
  {
    if executed != [] && executed[0].batch == batch {
      HeadAt(executed[1..], batch);
    }
  }

  /** How many of the rows in descending order `getMigrationsToRevert` picks, from the front. */
  function PickCount(executed: seq<Record>, steps: int): (k: nat)
    ensures k <= |executed|
  {
    if steps > 0 then if steps > |executed| then |executed| else steps
    else if executed == [] then 0 else HeadOfBatch(executed, executed[0].batch)
  }

  lemma {:induction false} HeadIsTail(h: seq<Record>, batch: int)
    ensures HeadOfBatch(Descending(h), batch) == TailOfBatch(h, batch)
  {
    if h != [] {
      HeadIsTail(h[..|h| - 1], batch);
      assert Descending(h)[1..] == Descending(h[..|h| - 1]);
    }
  }

  /** The rows picked from the descending list are the last `RevertCount` rows of the history. */
  lemma PickedFromEnd(h: seq<Record>, steps: int)
    ensures PickCount(Descending(h), steps) == RevertCount(h, steps)
    ensures forall i | 0 <= i < RevertCount(h, steps) :: Descending(h)[i] == h[|h| - 1 - i]
  {
    if steps <= 0 && h != [] {
      HeadIsTail(h, h[|h| - 1].batch);
    }
    hide *;
    forall i | 0 <= i < RevertCount(h, steps) ensures Descending(h)[i] == h[|h| - 1 - i] {
      DescendingAt(h, i);
    }
  }

  /** How many of these rows, from the front, can be reverted before one has no Down in the code or is refused. */
  function CanRevert<S>(code: Code<S>, registered: seq<string>, rows: seq<Record>, downs: nat): (k: nat)
    ensures k <= |rows|
  {
    if rows == [] || downs == 0 || rows[0].name !in registered || !code.hasDown(rows[0].name) then 0
    else 1 + CanRevert(code, registered, rows[1..], downs - 1)
  }

  /** The same for the last `steps` rows of the history, or its last batch. */
  function WillRevert<S>(code: Code<S>, registered: seq<string>, h: seq<Record>, steps: int, downs: nat): (k: nat)
    ensures k <= RevertCount(h, steps)
  {
    CanRevert(code, registered, Descending(h)[..RevertCount(h, steps)], downs)
  }

  lemma {:induction false} CanRevertMeans<S>(code: Code<S>, registered: seq<string>, rows: seq<Record>, downs: nat)
    ensures var k := CanRevert(code, registered, rows, downs);
      && k <= downs
      && (k < |rows| ==> k == downs || rows[k].name !in registered || !code.hasDown(rows[k].name))
  {
    if rows != [] && downs > 0 && rows[0].name in registered && code.hasDown(rows[0].name) {
      CanRevertMeans(code, registered, rows[1..], downs - 1);
    }
  }

  /** The extent of a rollback that goes through: the last `steps` rows, or the trailing rows of the last batch. */
  ghost predicate RolledBack(h: seq<Record>, steps: int, h': seq<Record>) {
    if steps > 0 then h' == if |h| <= steps then [] else h[..|h| - steps]
    else
      && h' <= h && (h != [] ==> |h'| < |h|)
      && (forall i | |h'| <= i < |h| :: h[i].batch == h[|h| - 1].batch)
      && (h' != [] ==> h'[|h'| - 1].batch != h[|h| - 1].batch)
  }

  lemma RollbackExtent(h: seq<Record>, steps: int)
    ensures RolledBack(h, steps, h[..|h| - RevertCount(h, steps)])
  {
  }

  /** Where a rollback stops short: at a row that has no Down in the code, or whose Down is refused. */
  lemma RollbackStops<S>(code: Code<S>, registered: seq<string>, h: seq<Record>, steps: int, downs: nat)
    ensures var k := WillRevert(code, registered, h, steps, downs);
      && k <= downs
      && (k < RevertCount(h, steps) ==>
            k == downs || h[|h| - 1 - k].name !in registered || !code.hasDown(h[|h| - 1 - k].name))
  {
    hide CanRevert, RevertCount, Descending;
    CanRevertMeans(code, registered, Descending(h)[..RevertCount(h, steps)], downs);
    if WillRevert(code, registered, h, steps, downs) < RevertCount(h, steps) {
      DescendingAt(h, WillRevert(code, registered, h, steps, downs));
    }
  }

  lemma RevertsPicked<S>(code: Code<S>, registered: seq<string>, h: seq<Record>, steps: int, downs: nat)
    ensures WillRevert(code, registered, h, steps, downs)
         == CanRevert(code, registered, Descending(h)[..RevertCount(h, steps)], downs)
    ensures h == [] ==> RevertCount(h, steps) == 0
  {
  }

  lemma WillRevertAll<S>(code: Code<S>, registered: seq<string>, h: seq<Record>, downs: nat)
    requires h != []
    ensures WillRevert(code, registered, h, |h|, downs) == CanRevert(code, registered, Descending(h), downs)
    ensures RevertCount(h, |h|) == |h|
  {
    assert Descending(h)[..|h|] == Descending(h);
  }

  /**
   Running a plan, then Rollback(0), where the first added rows and the second succeeded. History and schema are back
   where they were if and only if the highest batch was asked for, or the row before the new ones is not of batch 1.
   Otherwise the rollback goes on into older rows.
   */
  lemma RollbackUndoesPlan<S(!new)>(code: Code<S>, registered: seq<string>, registered': seq<string>, queried: bool,
                                    h: seq<Record>, lastId: nat, schema: S,
                                    h1: seq<Record>, lastId1: nat, schema1: S, h2: seq<Record>, schema2: S)
    requires HistoryOk(h, lastId) && AllVersioned(registered) && Distinct(registered) && Invertible(code)
    requires RanPlan(code, registered, queried, h, lastId, schema, h1, lastId1, schema1) && |h1| > |h|
    requires Reverted(code, registered', h1, schema1, h2, schema2) && |h2| == |h1| - RevertCount(h1, 0)
    ensures h2 <= h
    ensures h2 == h <==> queried || LastBatch(h) != 1
    ensures h2 == h ==> schema2 == schema
  {
    RollbackCuts(code, registered, registered', queried, h, lastId, schema, h1, lastId1, schema1, h2, schema2);
    if h2 == h {
      RollbackRestores(code, registered, registered', queried, h, lastId, schema, h1, lastId1, schema1, schema2);
    }
  }

  lemma RollbackCuts<S(!new)>(code: Code<S>, registered: seq<string>, registered': seq<string>, queried: bool,
                              h: seq<Record>, lastId: nat, schema: S,
                              h1: seq<Record>, lastId1: nat, schema1: S, h2: seq<Record>, schema2: S)
    requires RanPlan(code, registered, queried, h, lastId, schema, h1, lastId1, schema1) && |h1| > |h|
    requires Reverted(code, registered', h1, schema1, h2, schema2) && |h2| == |h1| - RevertCount(h1, 0)
    ensures h2 <= h
    ensures h2 == h <==> queried || LastBatch(h) != 1
  {
    hide Plan, Names, Fold, Unfold, NextBatch, LastBatch, RevertCount, Rows;
    var names := Plan(registered, Names(h))[..|h1| - |h|];
    assert h1 == h + Rows(names, NextBatch(h, queried), lastId);
    NewRowsPicked(h, names, queried, lastId);
    assert h2 == h[..|h2|];
  }

  lemma RollbackRestores<S(!new)>(code: Code<S>, registered: seq<string>, registered': seq<string>, queried: bool,
                                  h: seq<Record>, lastId: nat, schema: S,
                                  h1: seq<Record>, lastId1: nat, schema1: S, schema2: S)
    requires HistoryOk(h, lastId) && AllVersioned(registered) && Distinct(registered) && Invertible(code)
    requires RanPlan(code, registered, queried, h, lastId, schema, h1, lastId1, schema1)
    requires Reverted(code, registered', h1, schema1, h, schema2)
    ensures schema2 == schema
  {
    hide Plan, NextBatch, HistoryOk, AllVersioned, Distinct, Fold, Unfold, Rows, Invertible;
    var names := Plan(registered, Names(h))[..|h1| - |h|];
    RanPlanHistory(code, registered, queried, h, lastId, schema, h1, lastId1, schema1);
    assert Names(h1)[|h|..] == names;
    forall i | 0 <= i < |names| ensures code.hasDown(names[i]) {
      assert Names(h1)[|h| + i] == h1[|h| + i].name;
    }
    UnfoldUndoesFold(code, names, schema);
  }

  /**
   The harm of the failed query: after a baseline, and a first Migrate whose batch query failed, a Rollback(0) that
   succeeds leaves no row, and has run the Downs of the baseline on top of giving back the schema.
   */
  lemma RollbackThroughBaseline<S(!new)>(code: Code<S>, registered: seq<string>, registered': seq<string>,
                                         h: seq<Record>, lastId: nat, schema: S,
                                         h1: seq<Record>, lastId1: nat, schema1: S, h2: seq<Record>, schema2: S)
    requires HistoryOk(h, lastId) && AllVersioned(registered) && Distinct(registered) && Invertible(code)
    requires h != [] && forall i | 0 <= i < |h| :: h[i].batch == 1
    requires RanPlan(code, registered, false, h, lastId, schema, h1, lastId1, schema1) && |h1| > |h|
    requires Reverted(code, registered', h1, schema1, h2, schema2) && |h2| == |h1| - RevertCount(h1, 0)
    ensures h2 == [] && schema2 == Unfold(code, Names(h), schema)
  {
    var names := Plan(registered, Names(h))[..|h1| - |h|];
    RanPlanHistory(code, registered, false, h, lastId, schema, h1, lastId1, schema1);
    assert h1 == h + Rows(names, 1, lastId) && h1[|h1| - 1].batch == 1;
    TailAtLeast(h1, 1, |h1|);
    assert Names(h1)[0..] == Names(h) + names;
    forall i | 0 <= i < |names| ensures code.hasDown(names[i]) {
      assert Names(h1)[|h| + i] == h1[|h| + i].name;
    }
    UnfoldConcat(code, Names(h), names, schema1);
    UnfoldUndoesFold(code, names, schema);
  }

  /** A baseline with nothing run after it is taken back as a whole, and its Downs run though its Ups never did. */
  lemma RollbackOfBaseline<S(!new)>(code: Code<S>, registered': seq<string>, due: seq<string>, lastId: nat, schema: S,
                                    h1: seq<Record>, h2: seq<Record>, schema2: S)
    requires due != [] && h1 == Rows(due, 1, lastId)
    requires Reverted(code, registered', h1, schema, h2, schema2) && |h2| == |h1| - RevertCount(h1, 0)
    ensures h2 == [] && schema2 == Unfold(code, due, schema)
  {
    hide Unfold;
    TailAtLeast(h1, 1, |h1|);
    NamesOfRows([], due, 1, lastId);
    assert [] + h1 == h1 && Names(h1)[0..] == due;
  }

  /**
   Migrate, then Rollback(0), where the first added rows and the second succeeded, whatever baselines and failures
   came before. If the Migrate recorded no baseline, history and schema are back where they were if and only if the
   highest batch was asked for, or the row before the new ones is not of batch 1. If it did, the history is empty
   again if and only if nothing was run after the baseline or the query failed, and then the Downs of the baseline
   have run though its Ups never did; else the baseline stays and the schema is back.
   */
  lemma RollbackUndoesMigrate<S(!new)>(code: Code<S>, on: bool, version: string, outOfOrder: bool, a: Answers,
                                       registered: seq<string>, registered': seq<string>,
                                       h: seq<Record>, lastId: nat, schema: S,
                                       h1: seq<Record>, lastId1: nat, schema1: S, done: bool,
                                       h2: seq<Record>, schema2: S)
    requires HistoryOk(h, lastId) && AllVersioned(registered) && Distinct(registered) && Invertible(code)
    requires Migrated(code, on, version, outOfOrder, a, registered, h, lastId, schema, h1, lastId1, schema1, done)
    requires |h1| > |h|
    requires Reverted(code, registered', h1, schema1, h2, schema2) && |h2| == |h1| - RevertCount(h1, 0)
    ensures var due := Baseline(on, h, registered, version);
      && (h2 == h <==> if due == [] then a.batchQuery || LastBatch(h) != 1 else !a.batchQuery || |h1| == |due|)
      && (h2 == h ==> schema2 == Unfold(code, due, schema))
      && (due != [] && h2 != h ==> h2 == AfterBaseline(on, h, registered, version, lastId) && schema2 == schema)
  {
    hide HistoryOk, AllVersioned, Distinct, Invertible, Reverted, RevertCount, Planned, Baseline, InOrder, RanPlan,
      Names, AfterBaseline, LastBatch, Rows;
    var due, hb := Baseline(on, h, registered, version), AfterBaseline(on, h, registered, version, lastId);
    var lastIdB := lastId + |due|;
    AfterBaselineOk(on, h, registered, version, lastId);
    MigratedPlan(code, registered, a.batchQuery, a.sums && InOrder(true, outOfOrder, registered, hb), a.ups,
                 hb, lastIdB, schema, h1, lastId1, schema1, done);
    if due == [] {
      RollbackUndoesPlan(code, registered, registered', a.batchQuery, h, lastId, schema, h1, lastId1, schema1, h2,
                         schema2);
    } else {
      BaselineOnEmpty(on, h, registered, version, lastId);
      if |h1| == |due| {
        RollbackOfBaseline(code, registered', due, lastId, schema, h1, h2, schema2);
      } else if a.batchQuery {
        RollbackUndoesPlan(code, registered, registered', true, hb, lastIdB, schema, h1, lastId1, schema1, h2,
                           schema2);
      } else {
        RollbackThroughBaseline(code, registered, registered', hb, lastIdB, schema, h1, lastId1, schema1, h2, schema2);
      }
    }
  }

  lemma MigratedPlan<S(!new)>(code: Code<S>, registered: seq<string>, queried: bool, allowed: bool, ups: nat,
                              h: seq<Record>, lastId: nat, schema: S, h': seq<Record>, lastId': nat, schema': S,
                              done: bool)
    requires Planned(code, registered, queried, allowed, ups, h, lastId, schema, h', lastId', schema', done)
    ensures RanPlan(code, registered, queried, h, lastId, schema, h', lastId', schema')
    ensures |h'| >= |h| && (|h'| == |h| ==> h' == h && schema' == schema)
  {
    EmptyRows(NextBatch(h, queried), lastId);
  }

  lemma BaselineOnEmpty(on: bool, h: seq<Record>, registered: seq<string>, version: string, lastId: nat)
    requires Baseline(on, h, registered, version) != []
    ensures var due, hb := Baseline(on, h, registered, version), AfterBaseline(on, h, registered, version, lastId);
      && h == [] && hb == Rows(due, 1, lastId) && |hb| == |due| && Names(hb) == due
      && LastBatch(hb) == 1 && forall i | 0 <= i < |hb| :: hb[i].batch == 1
  {
    NamesOfRows([], Baseline(on, h, registered, version), 1, lastId);
  }

  lemma {:induction false} UnfoldConcat<S>(code: Code<S>, a: seq<string>, b: seq<string>, s: S)
    ensures Unfold(code, a + b, s) == Unfold(code, a, Unfold(code, b, s))
  {
    if b == [] {
      assert a + b == a;
    } else {
      assert (a + b)[..|a + b| - 1] == a + b[..|b| - 1];
      UnfoldConcat(code, a, b[..|b| - 1], code.down(b[|b| - 1], s));
    }
  }

  /** What `Migrate` does to the order of the batches. */
  lemma MigratedBatches<S(!new)>(code: Code<S>, on: bool, version: string, outOfOrder: bool, a: Answers,
                                 registered: seq<string>, h: seq<Record>, lastId: nat, schema: S, h': seq<Record>,
                                 lastId': nat, schema': S, done: bool)
    requires HistoryOk(h, lastId) && AllVersioned(registered) && Distinct(registered) && BatchesOk(h)
    requires Migrated(code, on, version, outOfOrder, a, registered, h, lastId, schema, h', lastId', schema', done)
    ensures BatchesOk(h') <==> a.batchQuery || MaxBatch(h) <= 1 || h' == h
  {
    hide AfterBaseline, Baseline, Planned, InOrder, HistoryOk, MaxBatch, BatchesOk;
    var due := Baseline(on, h, registered, version);
    if a.locked && a.read && (due == [] || a.baseline) {
      var h1 := AfterBaseline(on, h, registered, version, lastId);
      AfterBaselineOk(on, h, registered, version, lastId);
      AfterBaselineBatches(on, h, registered, version, lastId);
      PlannedBatches(code, registered, a.batchQuery, a.sums && InOrder(true, outOfOrder, registered, h1), a.ups,
                     h1, lastId + |due|, schema, h', lastId', schema', done);
    }
  }

  lemma AfterBaselineBatches(on: bool, h: seq<Record>, registered: seq<string>, version: string, lastId: nat)
    requires BatchesOk(h)
    ensures var h1 := AfterBaseline(on, h, registered, version, lastId);
      BatchesOk(h1) && (h1 == h || (MaxBatch(h) <= 1 && MaxBatch(h1) <= 1))
  {
    if on && h == [] {
      MaxBatchOfOnes(AfterBaseline(on, h, registered, version, lastId));
    }
    assert h + Rows([], 1, lastId) == h;
  }

  lemma {:induction false} MaxBatchOfOnes(h: seq<Record>)
    requires forall i | 0 <= i < |h| :: h[i].batch == 1
    ensures MaxBatch(h) <= 1
  {
    if h != [] {
      MaxBatchOfOnes(h[..|h| - 1]);
    }
  }

  lemma PlannedBatches<S(!new)>(code: Code<S>, registered: seq<string>, queried: bool, allowed: bool, ups: nat,
                                h: seq<Record>, lastId: nat, schema: S, h': seq<Record>, lastId': nat, schema': S,
                                done: bool)
    requires HistoryOk(h, lastId) && BatchesOk(h)
    requires Planned(code, registered, queried, allowed, ups, h, lastId, schema, h', lastId', schema', done)
    ensures BatchesOk(h') <==> queried || MaxBatch(h) <= 1 || h' == h
    ensures |h'| >= |h|
  {
    hide Plan, Names, Fold, NextBatch, Rows, MaxBatch, BatchesOk, Versioned;
    var names := Plan(registered, Names(h))[..|h'| - |h|];
    assert h' == h + Rows(names, NextBatch(h, queried), lastId);
    if names != [] {
      NewRowsInOrder(h, names, queried, lastId);
    } else {
      assert |h'| == |h|;
      EmptyRows(NextBatch(h, queried), lastId);
    }
  }

  /** A prefix keeps the order, and so does what is rebuilt in one batch. */
  lemma RevertedBatches<S(!new)>(code: Code<S>, registered: seq<string>, h: seq<Record>, schema: S, h': seq<Record>,
                                 schema': S)
    requires Reverted(code, registered, h, schema, h', schema')
    ensures BatchesOk(h) ==> BatchesOk(h')
  {
    hide Names, Unfold;
  }

  /** A Migrate with nothing pending changes nothing. */
  lemma SecondMigrateIdle<S(!new)>(code: Code<S>, on: bool, version: string, outOfOrder: bool, a: Answers,
                                   registered: seq<string>, h: seq<Record>, lastId: nat, schema: S, h': seq<Record>,
                                   lastId': nat, schema': S, done: bool)
    requires Pending(registered, Names(h)) == []
    requires Migrated(code, on, version, outOfOrder, a, registered, h, lastId, schema, h', lastId', schema', done)
    ensures h' == h && lastId' == lastId && schema' == schema
    ensures done <==> a.locked && a.read && a.sums
  {
    hide Pending, Names, AfterBaseline, Baseline, Planned, Plan, InOrder;
    BaselineIdle(on, h, registered, version, lastId);
    PlanMeans(registered, Names(h));
    InOrderIfNothingPlanned(true, outOfOrder, registered, h);
    if a.locked && a.read {
      PlannedNothing(code, registered, a.batchQuery, a.sums, a.ups, h, lastId, schema, h', lastId', schema', done);
    }
  }

  lemma PlannedNothing<S(!new)>(code: Code<S>, registered: seq<string>, queried: bool, allowed: bool, ups: nat,
                                h: seq<Record>, lastId: nat, schema: S, h': seq<Record>, lastId': nat, schema': S,
                                done: bool)
    requires Plan(registered, Names(h)) == []
    requires Planned(code, registered, queried, allowed, ups, h, lastId, schema, h', lastId', schema', done)
    ensures h' == h && lastId' == lastId && schema' == schema && (done <==> allowed)
  {
    hide Plan, Names, Fold, Rows, NextBatch;
    EmptyFold(code, schema);
    EmptyRows(NextBatch(h, queried), lastId);
    assert h + [] == h;
  }

  lemma EmptyFold<S>(code: Code<S>, s: S)
    ensures Fold(code, [], s) == s
  {
  }

  lemma EmptyNames()
    ensures Names([]) == []
  {
  }

  lemma EmptyConcat(a: seq<string>, b: seq<string>)
    requires a == []
    ensures a + b == b
  {
  }

  lemma EmptyRows(batch: int, lastId: nat)
    ensures Rows([], batch, lastId) == []
  {
  }

  /** With nothing pending there is nothing to baseline either. */
  lemma BaselineIdle(on: bool, h: seq<Record>, registered: seq<string>, version: string, lastId: nat)
    requires Pending(registered, Names(h)) == []
    ensures Baseline(on, h, registered, version) == [] && AfterBaseline(on, h, registered, version, lastId) == h
  {
    if h == [] && registered != [] {
      FilterSome(registered, n => n !in Names(h));
    }
    assert h + Rows([], 1, lastId) == h;
  }

  /** A Refresh that did not stop half way rebuilt everything from the registered names. */
  lemma RanPlanFromNothing<S(!new)>(code: Code<S>, registered: seq<string>, queried: bool,
                                    lastId: nat, schema: S, h': seq<Record>, lastId': nat, schema': S)
    requires AllVersioned(registered) && Distinct(registered)
    requires RanPlan(code, registered, queried, [], lastId, schema, h', lastId', schema')
    ensures Ascending(Names(h'))
    ensures |h'| == |Plan(registered, [])| ==> Names(h') == Plan(registered, [])
  {
    hide *;
    RanPlanFromNothingNames(code, registered, queried, lastId, schema, h', lastId', schema');
    var plan := Plan(registered, []);
    PlanIsFit(registered, []);
    PrefixAscends(plan, |h'|);
    assert plan[..|plan|] == plan;
  }

  lemma RanPlanFromNothingNames<S(!new)>(code: Code<S>, registered: seq<string>, queried: bool,
                                         lastId: nat, schema: S, h': seq<Record>, lastId': nat, schema': S)
    requires AllVersioned(registered) && Distinct(registered)
    requires RanPlan(code, registered, queried, [], lastId, schema, h', lastId', schema')
    ensures |h'| <= |Plan(registered, [])| && Names(h') == Plan(registered, [])[..|h'|]
  {
    hide *;
    EmptyNames();
    EmptyHistoryOk(lastId);
    RanPlanHistory(code, registered, queried, [], lastId, schema, h', lastId', schema');
    EmptyConcat([], Plan(registered, [])[..|h'|]);
  }

  lemma FirstBatch<S(!new)>(code: Code<S>, registered: seq<string>, queried: bool,
                            lastId: nat, schema: S, h': seq<Record>, lastId': nat, schema': S)
    requires RanPlan(code, registered, queried, [], lastId, schema, h', lastId', schema')
    ensures forall i | 0 <= i < |h'| :: h'[i].batch == 1
  {
    hide Plan, Rows, Fold, Names;
    assert MaxBatch([]) == 0;
    assert h' == Rows(Plan(registered, Names([]))[..|h'|], 1, lastId);
  }

  lemma OneBatch(h: seq<Record>)
    requires forall i | 0 <= i < |h| :: h[i].batch == 1
    ensures BatchesOk(h)
  {
  }

  lemma PrefixAscends(names: seq<string>, k: nat)
    requires Ascending(names) && k <= |names|
    ensures Ascending(names[..k])
  {
  }

  /** `Plan(registered, [])` is the only ascending list of exactly the registered names. */
  lemma RebuiltIsSorted(registered: seq<string>, names: seq<string>)
    requires AllVersioned(registered) && Distinct(registered)
    requires AllVersioned(names) && Ascending(names) && forall n :: n in names <==> n in registered
    ensures Plan(registered, []) == names
  {
    PlanIsFit(registered, []);
    AscendingUnique(Plan(registered, []), names);
  }

  /**
   What `Refresh` does: nothing, or as much of a full rollback as goes through, and if that is all of it, as much
   of the whole plan as goes through, without the order check.
   */
  ghost predicate Refreshed<S(!new)>(code: Code<S>, registered: seq<string>, a: Answers, h: seq<Record>, lastId: nat,
                                     schema: S, h': seq<Record>, lastId': nat, schema': S, done: bool) {
    var k := CanRevert(code, registered, Descending(h), a.downs);
    if !a.locked || !a.read || (h != [] && !a.reread) then
      h' == h && lastId' == lastId && schema' == schema && !done
    else if k < |h| then
      lastId' == lastId && Reverted(code, registered, h, schema, h', schema') && |h'| == |h| - k && !done
    else
      && Reverted(code, registered, h, schema, [], Unfold(code, Names(h), schema))
      && Planned(code, registered, a.batchQuery, a.sums, a.ups, [], lastId, Unfold(code, Names(h), schema), h',
        lastId', schema', done)
  }

  lemma RevertedAll<S(!new)>(code: Code<S>, registered: seq<string>, h: seq<Record>, schema: S, schema': S)
    requires Reverted(code, registered, h, schema, [], schema')
    ensures schema' == Unfold(code, Names(h), schema)
  {
    assert Names(h)[0..] == Names(h);
  }

  // ---------------------------------------------------------------------------------------------
  // The same in plain terms.

  /** One above the highest batch, or 1 in an empty table or if the query failed. */
  lemma NextBatchMeans(h: seq<Record>)
    requires BatchesPositive(h)
    ensures NextBatch(h, false) == 1 && (h == [] ==> NextBatch(h, true) == 1)
    ensures forall i | 0 <= i < |h| :: h[i].batch < NextBatch(h, true)
    ensures h != [] ==> exists i | 0 <= i < |h| :: h[i].batch + 1 == NextBatch(h, true)
  {
    if h != [] {
      var i := MaxBatchIsTaken(h);
    }
  }

  /**
   The registered names that are not in the table are run in ascending order, from the lowest on: as many as go through
   if they may, and none otherwise. All their rows are of one batch, and the schema has seen their Ups. Success means
   that they may and that every registered name is in the table.
   */
  ghost predicate RunUpwards<S(!new)>(code: Code<S>, registered: seq<string>, queried: bool, allowed: bool, ups: nat,
                                      h: seq<Record>, schema: S, h': seq<Record>, schema': S, done: bool) {
    && h <= h'
    && var run := Names(h')[|h|..];
      && (forall i, j | 0 <= i < j < |run| :: NameLess(run[i], run[j]))
      && (forall n | n in run :: n in registered && n !in Names(h))
      && (forall n, m | m in run && n in registered && n !in Names(h) && NameLess(n, m) :: n in run)
      && (forall i | |h| <= i < |h'| :: h'[i].batch == NextBatch(h, queried))
      && schema' == Fold(code, run, schema)
      && (if allowed then |run| <= ups && (|run| < ups ==> forall n | n in registered :: n in Names(h'))
          else run == [])
      && (done <==> allowed && forall n | n in registered :: n in Names(h'))
  }

  lemma PrefixOfAscending(ns: seq<string>, k: nat, n: string, m: string)
    requires Ascending(ns) && AllVersioned(ns) && k <= |ns| && m in ns[..k] && n in ns && NameLess(n, m)
    ensures n in ns[..k]
  {
    var i :| 0 <= i < |ns| && ns[i] == n;
    var j :| 0 <= j < k && ns[..k][j] == m;
    if i >= k {
      NameOrder(m, n, m);
    }
  }

  lemma PlannedMeans<S(!new)>(code: Code<S>, registered: seq<string>, queried: bool, allowed: bool, ups: nat,
                              h: seq<Record>, lastId: nat, schema: S, h': seq<Record>, lastId': nat, schema': S,
                              done: bool)
    requires HistoryOk(h, lastId) && AllVersioned(registered) && Distinct(registered)
    requires Planned(code, registered, queried, allowed, ups, h, lastId, schema, h', lastId', schema', done)
    ensures RunUpwards(code, registered, queried, allowed, ups, h, schema, h', schema', done)
  {
    hide FindVersion, NameLess, NextBatch, Fold, HistoryOk, Plan, Names, Rows, Ascending, Distinct, AllVersioned;
    var plan, k := Plan(registered, Names(h)), |h'| - |h|;
    PlanIsFit(registered, Names(h));
    NamesOfRows(h, plan[..k], NextBatch(h, queried), lastId);
    RunOfPlan(Names(h), Names(h'), plan, k);
    PlanRunsUpwards(registered, Names(h), plan, k);
    AllRun(registered, Names(h), plan, k);
  }

  lemma RunOfPlan(executed: seq<string>, all: seq<string>, plan: seq<string>, k: nat)
    requires k <= |plan| && all == executed + plan[..k]
    ensures all[|executed|..] == plan[..k] && (k == 0 ==> all[|executed|..] == [])
  {
  }

  /** What has been run of a plan is the lowest part of it. */
  lemma PlanRunsUpwards(registered: seq<string>, executed: seq<string>, plan: seq<string>, k: nat)
    requires Ascending(plan) && AllVersioned(plan) && k <= |plan|
    requires forall n :: n in plan <==> n in registered && n !in executed
    ensures forall i, j | 0 <= i < j < k :: NameLess(plan[..k][i], plan[..k][j])
    ensures forall n | n in plan[..k] :: n in registered && n !in executed
    ensures forall n, m | m in plan[..k] && n in registered && n !in executed && NameLess(n, m) :: n in plan[..k]
  {
    hide NameLess, AllVersioned;
    forall n, m | m in plan[..k] && n in registered && n !in executed && NameLess(n, m) ensures n in plan[..k] {
      PrefixOfAscending(plan, k, n, m);
    }
  }

  /** Every registered name has been run exactly when the whole plan has. */
  lemma AllRun(registered: seq<string>, executed: seq<string>, plan: seq<string>, k: nat)
    requires Distinct(plan) && k <= |plan| && forall n :: n in plan <==> n in registered && n !in executed
    ensures (forall n | n in registered :: n in executed + plan[..k]) <==> k == |plan|
  {
    if k == |plan| {
      assert plan[..k] == plan;
    } else {
      assert plan[k] in plan && plan[k] !in plan[..k];
    }
  }

  /** After the baseline step: unchanged, or all registered names at or below the version, in batch 1. */
  ghost predicate Baselined(on: bool, version: string, registered: seq<string>, h: seq<Record>, hb: seq<Record>) {
    if on && h == [] then
      && (forall n :: n in Names(hb) <==> n in registered && !NameLess(version, n))
      && (forall i | 0 <= i < |hb| :: hb[i].batch == 1)
    else hb == h
  }

  lemma AfterBaselineMeans(on: bool, version: string, registered: seq<string>, h: seq<Record>, lastId: nat)
    ensures Baselined(on, version, registered, h, AfterBaseline(on, h, registered, version, lastId))
    ensures Baseline(on, h, registered, version) != [] <==>
      on && h == [] && exists n | n in registered :: !NameLess(version, n)
  {
    hide NameLess, BaselineNames, Rows, Names;
    EmptyRows(1, lastId);
    assert h + [] == h;
    var names := BaselineNames(registered, version);
    BaselineNamesMeans(registered, version);
    if on && h == [] {
      EmptyNames();
      NamesOfRows([], names, 1, lastId);
      assert [] + names == names;
    }
  }

  lemma BaselineNamesMeans(registered: seq<string>, version: string)
    ensures forall n :: n in BaselineNames(registered, version) <==> n in registered && !NameLess(version, n)
    ensures BaselineNames(registered, version) != [] <==> exists n | n in registered :: !NameLess(version, n)
  {
    hide NameLess;
    var names := BaselineNames(registered, version);
    if names != [] {
      assert names[0] in names;
    }
  }

  /**
   What `Migrate` does, in plain terms. Without the lock or the table, or if the rows of a baseline that is due are
   refused, nothing, and it fails. Otherwise the baseline is recorded if it is due, and then the registered names that
   are not in the table are run upwards, if what has run can be checked and, unless out of order is allowed, lies below
   all of them.
   */
  lemma MigratedMeans<S(!new)>(code: Code<S>, on: bool, version: string, outOfOrder: bool, a: Answers,
                               registered: seq<string>, h: seq<Record>, lastId: nat, schema: S, h': seq<Record>,
                               lastId': nat, schema': S, done: bool)
    requires HistoryOk(h, lastId) && AllVersioned(registered) && Distinct(registered)
    requires Migrated(code, on, version, outOfOrder, a, registered, h, lastId, schema, h', lastId', schema', done)
    ensures
      var due := on && h == [] && exists n | n in registered :: !NameLess(version, n);
      if !a.locked || !a.read || (due && !a.baseline) then h' == h && schema' == schema && !done
      else exists hb ::
        && Baselined(on, version, registered, h, hb)
        && var below := forall e, p | e in Names(hb) && p in registered && p !in Names(hb) :: NameLess(e, p);
          RunUpwards(code, registered, a.batchQuery, a.sums && (outOfOrder || below), a.ups, hb, schema, h', schema',
                     done)
  {
    hide FindVersion, NameLess, HistoryOk, AfterBaseline, Baseline, Planned, Baselined, RunUpwards, AllVersioned,
      Distinct, Names;
    AfterBaselineMeans(on, version, registered, h, lastId);
    var due := Baseline(on, h, registered, version);
    if a.locked && a.read && (due == [] || a.baseline) {
      var hb := AfterBaseline(on, h, registered, version, lastId);
      AfterBaselineOk(on, h, registered, version, lastId);
      PlannedMeans(code, registered, a.batchQuery, a.sums && InOrder(true, outOfOrder, registered, hb), a.ups,
                   hb, lastId + |due|, schema, h', lastId', schema', done);
      InOrderMeans(outOfOrder, registered, hb);
    }
  }

  lemma InOrderMeans(outOfOrder: bool, registered: seq<string>, h: seq<Record>)
    requires AllVersioned(registered) && Distinct(registered)
    ensures InOrder(true, outOfOrder, registered, h) <==>
      || outOfOrder
      || forall e, p | e in Names(h) && p in registered && p !in Names(h) :: NameLess(e, p)
  {
    hide NameLess, Names, Plan;
    PlanIsFit(registered, Names(h));
  }

  lemma {:induction false} CanRevertAll<S>(code: Code<S>, registered: seq<string>, rows: seq<Record>, downs: nat)
    ensures CanRevert(code, registered, rows, downs) == |rows| <==>
      |rows| <= downs && forall r | r in rows :: r.name in registered && code.hasDown(r.name)
  {
    if rows != [] {
      assert rows == [rows[0]] + rows[1..];
      if downs > 0 {
        CanRevertAll(code, registered, rows[1..], downs - 1);
      }
    }
  }

  lemma {:induction false} DescendingHas(h: seq<Record>)
    ensures forall r :: r in Descending(h) <==> r in h
  {
    if h != [] {
      DescendingHas(h[..|h| - 1]);
      assert h == h[..|h| - 1] + [h[|h| - 1]];
    }
  }

  /**
   What `Refresh` does, in plain terms. Without the lock or the table nothing, and it fails. If every row has a Down
   and every Down goes through, all of it is taken back and the registered names are run upwards from an empty table,
   without the order check. Otherwise it fails and leaves the rows up to the first that could not be taken back.
   */
  lemma RefreshedMeans<S(!new)>(code: Code<S>, registered: seq<string>, a: Answers, h: seq<Record>, lastId: nat,
                                schema: S, h': seq<Record>, lastId': nat, schema': S, done: bool)
    requires HistoryOk(h, lastId) && AllVersioned(registered) && Distinct(registered)
    requires Refreshed(code, registered, a, h, lastId, schema, h', lastId', schema', done)
    ensures
      if !a.locked || !a.read || (h != [] && !a.reread) then h' == h && schema' == schema && !done
      else if |h| <= a.downs && forall r | r in h :: r.name in registered && code.hasDown(r.name) then
        RunUpwards(code, registered, a.batchQuery, a.sums, a.ups, [], Unfold(code, Names(h), schema), h', schema', done)
      else
        && h' != [] && h' <= h && !done && schema' == Unfold(code, Names(h)[|h'|..], schema)
        && |h| - |h'| <= a.downs
        && var next := h'[|h'| - 1].name;
          |h| - |h'| == a.downs || next !in registered || !code.hasDown(next)
  {
    hide HistoryOk, AllVersioned, Distinct, Planned, RunUpwards, Unfold, Fold, Names, CanRevert, Descending;
    CanRevertAll(code, registered, Descending(h), a.downs);
    CanRevertMeans(code, registered, Descending(h), a.downs);
    DescendingHas(h);
    var k := CanRevert(code, registered, Descending(h), a.downs);
    if k < |h| {
      DescendingAt(h, k);
    } else if a.locked && a.read && (h == [] || a.reread) {
      EmptyHistoryOk(lastId);
      PlannedMeans(code, registered, a.batchQuery, a.sums, a.ups, [], lastId, Unfold(code, Names(h), schema),
                   h', lastId', schema', done);
    }
  }

  // ---------------------------------------------------------------------------------------------
  // The engine.

  datatype Command =
    | Register(name: string)
    | Migrate(answers: Answers)
    | Rollback(steps: int, answers: Answers)
    | Reset(answers: Answers)
    | Refresh(answers: Answers)

  class MigrationManager<S(!new)> {
    const code: Code<S>
    const outOfOrder: bool
    const baselineOnMigrate: bool
    const baselineVersion: string
    var registered: seq<string>
    var history: seq<Record>
    var lastId: nat
    var schema: S
    ghost const base: S
    ghost var baselined: bool     // some row was recorded without its Up

    constructor (code: Code<S>, outOfOrder: bool, baselineOnMigrate: bool, baselineVersion: string, initial: S)
      requires Versioned(baselineVersion)
      ensures Valid() && InStep()
      ensures history == [] && registered == [] && schema == initial && base == initial && !baselined
      ensures this.code == code && this.outOfOrder == outOfOrder
      ensures this.baselineOnMigrate == baselineOnMigrate && this.baselineVersion == baselineVersion
    {
      this.code := code;
      this.outOfOrder := outOfOrder;
      this.baselineOnMigrate := baselineOnMigrate;
      this.baselineVersion := baselineVersion;
      registered, history, lastId, schema, base, baselined := [], [], 0, initial, initial, false;
    }

    ghost predicate Valid()
      reads this
    {
      && Versioned(baselineVersion)
      && AllVersioned(registered) && Distinct(registered)
      && HistoryOk(history, lastId)
    }

    /** The schema is what the history says, as long as no row was recorded without its Up. */
    ghost predicate InStep()
      reads this
    {
      !baselined ==> schema == Fold(code, Names(history), base)
    }

    /** `RegisterMigration`, for a new name. */
    method Register(name: string)
      requires Valid() && Versioned(name) && name !in registered
      modifies this`registered
      ensures Valid() && registered == old(registered) + [name]
    {
      registered := registered + [name];
    }

    /** `getNextBatch`. A query that fails is not noticed, and then the batch is 1. */
    method GetNextBatch(queried: bool) returns (batch: int)
      ensures batch == NextBatch(history, queried)
    {
      if !queried {
        return 1;
      }
      var highest := 0;
      for i := 0 to |history|
        invariant highest == MaxBatch(history[..i])
      {
        assert history[..i + 1][..i] == history[..i];
        if history[i].batch > highest {
          highest := history[i].batch;
        }
      }
      assert history[..|history|] == history;
      batch := highest + 1;
    }

    /** INSERT of a history row, with the next id. */
    method CreateRecord(name: string, batch: int)
      modifies this`history, this`lastId
      ensures lastId == old(lastId) + 1
      ensures history == old(history) + [Record(lastId, name, batch)]
    {
      lastId := lastId + 1;
      history := history + [Record(lastId, name, batch)];
    }

    /**
     `applyBaselineIfRequired`: on an empty history, and in one transaction, the rows of the registered names
     at or below the baseline version are recorded in batch 1, without running anything.
     */
    method ApplyBaselineIfRequired(ok: bool) returns (st: Status)
      modifies this`history, this`lastId, this`baselined
      ensures st.Success? <==> ok || Baseline(baselineOnMigrate, old(history), registered, baselineVersion) == []
      ensures st.Failure? ==> history == old(history) && lastId == old(lastId) && baselined == old(baselined)
      ensures st.Success? ==> BaselineDone(baselineOnMigrate, baselineVersion, registered,
                                           old(history), old(lastId), old(baselined), history, lastId, baselined)
    {
      hide BaselineNames, Rows;
      EmptyRows(1, lastId);
      if !baselineOnMigrate || |history| > 0 {
        assert history + [] == history;
        return Success;
      }
      var names := BaselineNames(registered, baselineVersion);
      if |names| == 0 {
        assert history + [] == history;
        return Success;
      }
      if !ok {
        return Failure;
      }
      for i := 0 to |names|
        invariant history == Rows(names[..i], 1, old(lastId)) && lastId == old(lastId) + i
        invariant baselined == old(baselined)
      {
        RowsStep(names, i, 1, old(lastId));
        CreateRecord(names[i], 1);
      }
      assert names[..|names|] == names;
      assert [] + history == history;
      baselined := true;
      st := Success;
    }

    /** `getExecutedMigrationsMap`, of which only the names are used. */
    method GetExecutedMigrations() returns (executed: set<string>)
      ensures forall n :: n in executed <==> n in Names(history)
    {
      executed := {};
      for i := 0 to |history|
        invariant forall n :: n in executed <==> n in Names(history)[..i]
      {
        executed := executed + {history[i].name};
      }
      assert Names(history)[..|history|] == Names(history);
    }

    /** `validateOrder`. */
    method ValidateOrder(pending: seq<string>) returns (st: Status)
      requires HistoryOk(history, lastId) && AllVersioned(pending) && forall p | p in pending :: p !in Names(history)
      ensures st.Success? <==> outOfOrder || Below(Names(history), pending)
    {
      hide FindVersion, NameLess, NoCircle, Tops, Below, HistoryOk;
      if outOfOrder || |history| == 0 || |pending| == 0 {
        BelowIfEmpty(Names(history), pending);
        return Success;
      }
      var executed := GetExecutedMigrations();
      BelowMeansTops(history, executed, pending);
      assert Names(history)[0] in executed;
      ExecutedVersioned(history, lastId, executed);
      VersionedNoCircle(executed);
      var latest := FindLatestExecutedMigration(executed);
      for i := 0 to |pending|
        invariant forall j | 0 <= j < i :: Tops(executed, pending[j])
      {
        assert pending[i] in pending;
        var less := CompareMigrationNames(pending[i], latest);
        OrderAgainstLatest(executed, latest, pending[i]);
        if less {
          return Failure;
        }
        assert Tops(executed, pending[i]);
      }
      st := Success;
    }

    /** `executePendingMigrations`: Up and row in one transaction each, stopping at the first failure. */
    method ExecutePendingMigrations(pending: seq<string>, batch: int, ups: nat) returns (st: Status)
      modifies this`history, this`lastId, this`schema
      ensures Executed(code, pending, batch, old(history), old(lastId), old(schema), history, lastId, schema)
      ensures |history| == |old(history)| + Least(ups, |pending|) && (st.Success? <==> ups >= |pending|)
    {
      for i := 0 to |pending|
        invariant i <= ups
        invariant history == old(history) + Rows(pending[..i], batch, old(lastId))
        invariant lastId == old(lastId) + i
        invariant schema == Fold(code, pending[..i], old(schema))
      {
        if i == ups {
          return Failure;
        }
        FoldStep(code, pending, i, old(schema));
        RowsStep(pending, i, batch, old(lastId));
        schema := code.up(pending[i], schema);
        CreateRecord(pending[i], batch);
      }
      st := Success;
    }

    /** Sorts the pending names, checks them against the history if `check`, and runs them. */
    method SortAndRun(check: bool, queried: bool, ups: nat) returns (st: Status)
      requires Valid()
      modifies this`history, this`lastId, this`schema
      ensures Planned(code, registered, queried, InOrder(check, outOfOrder, registered, old(history)), ups,
                      old(history), old(lastId), old(schema), history, lastId, schema, st.Success?)
    {
      hide FindVersion, NameLess, Executed, Below, Ascending, HistoryOk, Names, Fold, NextBatch, MaxBatch, Pending,
        Sorted, Plan, Distinct, AllVersioned, RanPlan, Versioned;
      ghost var h0, id0, s0 := history, lastId, schema;
      var pending := Pending(registered, Names(history));
      PlanMeans(registered, Names(history));
      if |pending| == 0 {
        NothingPlannedRan(code, registered, queried, history, lastId, schema);
        InOrderIfNothingPlanned(check, outOfOrder, registered, history);
        return Success;
      }
      pending := Sorted(pending);
      if check {
        PlanIsNew(registered, Names(history));
        st := ValidateOrder(pending);
        if st.Failure? {
          NothingPlannedRan(code, registered, queried, history, lastId, schema);
          return;
        }
      }
      var batch := GetNextBatch(queried);
      st := ExecutePendingMigrations(pending, batch, ups);
      PlanRan(code, registered, queried, h0, id0, s0, history, lastId, schema);
    }

    /** What `Migrate` does once the baseline is dealt with; `Refresh` does the same without the order check. */
    method RunPending(check: bool, sums: bool, queried: bool, ups: nat) returns (st: Status)
      requires Valid()
      modifies this`history, this`lastId, this`schema
      ensures Valid() && (old(InStep()) ==> InStep())
      ensures Planned(code, registered, queried, sums && InOrder(check, outOfOrder, registered, old(history)), ups,
                      old(history), old(lastId), old(schema), history, lastId, schema, st.Success?)
      ensures st.Success? ==> Pending(registered, Names(history)) == []
      ensures check && !outOfOrder && Ascending(Names(old(history))) ==> Ascending(Names(history))
    {
      hide FindVersion, NameLess, RanPlan, Plan, Below, Ascending, Fold, HistoryOk, Names, Pending, AllVersioned,
        Distinct;
      ghost var h0, id0, s0 := history, lastId, schema;
      if !sums {
        NothingPlannedRan(code, registered, queried, history, lastId, schema);
        return Failure;     // the history cannot be read, or a checksum differs
      }
      st := SortAndRun(check, queried, ups);
      RanPlanHistory(code, registered, queried, h0, id0, s0, history, lastId, schema);
      if s0 == Fold(code, Names(h0), base) {
        RanPlanSchema(code, base, registered, queried, h0, id0, s0, history, lastId, schema);
      }
      if st.Success? {
        RanPlanComplete(code, registered, queried, h0, id0, s0, history, lastId, schema);
      }
      if check && !outOfOrder && Ascending(Names(h0)) {
        RanPlanAscending(code, registered, queried, h0, id0, s0, history, lastId, schema);
      }
    }

    /**
     `Migrate`. Whatever the database answers, the history is the old one, or the old one with a baseline that
     was due and then as many of the planned names as went through, these in one batch above all others; and the
     schema has seen the Up of exactly those planned names. Success means that nothing is pending.
     */
    method Migrate(a: Answers) returns (st: Status)
      requires Valid()
      modifies this`history, this`lastId, this`schema, this`baselined
      ensures Valid() && (old(InStep()) ==> InStep())
      ensures Migrated(code, baselineOnMigrate, baselineVersion, outOfOrder, a, registered,
                       old(history), old(lastId), old(schema), history, lastId, schema, st.Success?)
      ensures old(BatchesOk(history)) ==>
        (BatchesOk(history) <==> a.batchQuery || MaxBatch(old(history)) <= 1 || history == old(history))
      ensures st.Success? ==> Pending(registered, Names(history)) == []
      ensures !outOfOrder && !baselineOnMigrate && Ascending(Names(old(history))) ==> Ascending(Names(history))
    {
      hide HistoryOk, BaselineDone, RanPlan, Planned, InOrder, Ascending, Pending, Names, Fold, AllVersioned, Distinct,
        Versioned, BatchesOk, Filter, Rows, MaxBatch, Baseline, AfterBaseline;
      ghost var h0, id0, s0, b0 := history, lastId, schema, baselined;
      if !a.locked || !a.read {
        return Failure;
      }
      st := ApplyBaselineIfRequired(a.baseline);
      if st.Success? {
        BaselineDoneFacts(baselineOnMigrate, baselineVersion, registered, h0, id0, b0, history, lastId, baselined);
        ghost var h1, id1, b1 := history, lastId, baselined;
        st := RunPending(true, a.sums, a.batchQuery, a.ups);
        MigratedRan(code, baselineOnMigrate, baselineVersion, outOfOrder, a, registered,
                    h0, id0, s0, b0, h1, id1, b1, history, lastId, schema, st.Success?);
        if BatchesOk(h0) {
          MigratedBatches(code, baselineOnMigrate, baselineVersion, outOfOrder, a, registered,
                          h0, id0, s0, history, lastId, schema, st.Success?);
        }
      }
    }

    /** `revertSingleMigration`: Down and deletion in one transaction. */
    method RevertSingleMigration(record: Record, ok: bool) returns (st: Status)
      modifies this`history, this`schema
      ensures st.Success? <==> record.name in registered && code.hasDown(record.name) && ok
      ensures st.Failure? ==> history == old(history) && schema == old(schema)
      ensures st.Success? ==>
        history == Without(old(history), record.id) && schema == code.down(record.name, old(schema))
    {
      if record.name !in registered {
        return Failure;
      }
      if !code.hasDown(record.name) {
        return Failure;
      }
      if !ok {
        return Failure;
      }
      schema := code.down(record.name, schema);
      history := Without(history, record.id);
      st := Success;
    }

    /** `getMigrationsToRevert`, on the rows in descending order. */
    method GetMigrationsToRevert(executed: seq<Record>, steps: int) returns (toRevert: seq<Record>)
      ensures toRevert == executed[..PickCount(executed, steps)]
      ensures steps > 0 ==> toRevert == if |executed| <= steps then executed else executed[..steps]
      ensures steps <= 0 ==>
        && toRevert <= executed && (executed != [] ==> toRevert != [])
        && (forall r | r in toRevert :: r.batch == executed[0].batch)
        && (|toRevert| < |executed| ==> executed[|toRevert|].batch != executed[0].batch)
    {
      HeadMeans(executed);
      if steps > 0 {
        var count := if steps > |executed| then |executed| else steps;
        assert executed[..|executed|] == executed;
        return executed[..count];
      }
      toRevert := [];
      if |executed| > 0 {
        var lastBatch := executed[0].batch;
        for i := 0 to |executed|
          invariant toRevert == executed[..i]
          invariant HeadOfBatch(executed, lastBatch) == i + HeadOfBatch(executed[i..], lastBatch)
        {
          assert executed[i..][1..] == executed[i + 1..];
          if executed[i].batch == lastBatch {
            toRevert := toRevert + [executed[i]];
          } else {
            break;
          }
        }
      }
    }

    /** `executeReversions`, for the last rows of the history, last row first. */
    method ExecuteReversions(toRevert: seq<Record>, downs: nat) returns (st: Status)
      requires HistoryOk(history, lastId) && |toRevert| <= |history|
      requires forall i | 0 <= i < |toRevert| :: toRevert[i] == history[|history| - 1 - i]
      modifies this`history, this`schema
      ensures Reverted(code, registered, old(history), old(schema), history, schema)
      ensures |history| == |old(history)| - CanRevert(code, registered, toRevert, downs)
      ensures st.Success? <==> CanRevert(code, registered, toRevert, downs) == |toRevert|
    {
      hide Names, HistoryOk, Unfold, Reverted;
      ghost var h0 := history;
      NothingReverted(code, registered, history, schema);
      for i := 0 to |toRevert|
        invariant Reverted(code, registered, h0, old(schema), history, schema)
        invariant |history| == |h0| - i && i <= downs
        invariant CanRevert(code, registered, toRevert, downs)
          == i + CanRevert(code, registered, toRevert[i..], downs - i)
      {
        ghost var h1, s1 := history, schema;
        assert toRevert[i..][1..] == toRevert[i + 1..];
        RevertedPrefix(code, registered, h0, old(schema), h1, s1);
        PrefixOk(h0, |h1|, lastId);
        assert h1[|h1| - 1] == toRevert[i];
        WithoutLast(h1, lastId);
        st := RevertSingleMigration(toRevert[i], i < downs);
        if st.Failure? {
          return;
        }
        RevertedOneMore(code, registered, h0, old(schema), h1, s1);
      }
      st := Success;
    }

    /**
     `rollbackUnderLock`. A suffix of the rows is gone, as long as asked for or up to the first row that could
     not be reverted, and exactly its Downs have run; success means it is as long as asked for.
     */
    method RollbackUnderLock(steps: int, read: bool, downs: nat) returns (st: Status)
      requires Valid()
      modifies this`history, this`schema
      ensures Valid() && (Invertible(code) && old(InStep()) ==> InStep())
      ensures Reverted(code, registered, old(history), old(schema), history, schema)
      ensures var k := WillRevert(code, registered, old(history), steps, downs);
        && |history| == |old(history)| - (if read then k else 0)
        && (st.Success? <==> read && k == RevertCount(old(history), steps))
      ensures st.Success? ==> RolledBack(old(history), steps, history)
      ensures |old(history)| - |history| <= downs
      ensures st.Failure? && read ==>
        && history != []
        && var next := history[|history| - 1].name;
          |old(history)| - |history| == downs || next !in registered || !code.hasDown(next)
      ensures Ascending(Names(old(history))) ==> Ascending(Names(history))
      ensures old(BatchesOk(history)) ==> BatchesOk(history)
    {
      hide Names, HistoryOk, BatchesOk, Unfold, Fold, Reverted, Ascending, Invertible, AllVersioned, Distinct,
        Descending, PickCount, CanRevert, RolledBack, RevertCount, WillRevert;
      NothingReverted(code, registered, history, schema);
      RollbackStops(code, registered, history, steps, downs);
      RollbackExtent(history, steps);
      if !read {
        return Failure;
      }
      ghost var h0, s0 := history, schema;
      RevertsPicked(code, registered, history, steps, downs);
      var executed := Descending(history);
      if |executed| == 0 {
        return Success;
      }
      PickedFromEnd(history, steps);
      var toRevert := GetMigrationsToRevert(executed, steps);
      st := ExecuteReversions(toRevert, downs);
      RevertedPrefix(code, registered, h0, s0, history, schema);
      RevertedHistory(code, registered, h0, lastId, s0, history, schema);
      RevertedBatches(code, registered, h0, s0, history, schema);
      if Invertible(code) && !baselined && s0 == Fold(code, Names(h0), base) {
        RevertedSchema(code, registered, base, h0, s0, history, schema);
      }
    }

    /** `Rollback`: the last `steps` rows, or the last batch when `steps` is not positive. */
    method Rollback(steps: int, a: Answers) returns (st: Status)
      requires Valid()
      modifies this`history, this`schema
      ensures Valid() && (Invertible(code) && old(InStep()) ==> InStep())
      ensures Reverted(code, registered, old(history), old(schema), history, schema)
      ensures var k := WillRevert(code, registered, old(history), steps, a.downs);
        && |history| == |old(history)| - (if a.locked && a.read then k else 0)
        && (st.Success? <==> a.locked && a.read && k == RevertCount(old(history), steps))
      ensures st.Success? && steps > 0 ==>
        history == if |old(history)| <= steps then [] else old(history)[..|old(history)| - steps]
      ensures st.Success? && steps <= 0 ==>
        var h := old(history);
        && history <= h && (h != [] ==> |history| < |h|)
        && (forall i | |history| <= i < |h| :: h[i].batch == h[|h| - 1].batch)
        && (history != [] ==> history[|history| - 1].batch != h[|h| - 1].batch)
      ensures |old(history)| - |history| <= a.downs
      ensures st.Failure? && a.locked && a.read ==>
        && history != []
        && var next := history[|history| - 1].name;
          |old(history)| - |history| == a.downs || next !in registered || !code.hasDown(next)
      ensures Ascending(Names(old(history))) ==> Ascending(Names(history))
      ensures old(BatchesOk(history)) ==> BatchesOk(history)
    {
      hide Valid, InStep, Reverted, Ascending, BatchesOk, Names, WillRevert, RevertCount, Invertible;
      if !a.locked {
        NothingReverted(code, registered, history, schema);
        return Failure;
      }
      st := RollbackUnderLock(steps, a.read, a.downs);
    }

    /** `Reset`: success empties the history, and with every Down undoing its Up restores the base schema. */
    method Reset(a: Answers) returns (st: Status)
      requires Valid()
      modifies this`history, this`schema
      ensures Valid() && (Invertible(code) && old(InStep()) ==> InStep())
      ensures Reverted(code, registered, old(history), old(schema), history, schema)
      ensures var k := CanRevert(code, registered, Descending(old(history)), a.downs);
        && |history| == |old(history)| - (if a.locked && a.read && a.reread then k else 0)
        && (st.Success? <==> a.locked && a.read && (old(history) == [] || (a.reread && k == |old(history)|)))
      ensures st.Success? ==> history == []
      ensures st.Success? && Invertible(code) && old(InStep()) && !baselined ==> schema == base
      ensures Ascending(Names(old(history))) ==> Ascending(Names(history))
      ensures old(BatchesOk(history)) ==> BatchesOk(history)
    {
      hide HistoryOk, BatchesOk, Unfold, Reverted, Ascending, Invertible, AllVersioned, Distinct, Names, CanRevert,
        WillRevert, RevertCount;
      NothingReverted(code, registered, history, schema);
      EmptyNames();
      if !a.locked || !a.read {
        return Failure;
      }
      var executed := Descending(history);
      if |executed| == 0 {
        return Success;
      }
      WillRevertAll(code, registered, history, a.downs);
      st := RollbackUnderLock(|executed|, a.reread, a.downs);
    }

    /**
     `Refresh`: success rebuilds the history, in one batch, from the sorted registered names, and the schema
     from the base. The order check is not made here, and need not be.
     */
    method Refresh(a: Answers) returns (st: Status)
      requires Valid()
      modifies this`history, this`lastId, this`schema
      ensures Valid() && (Invertible(code) && old(InStep()) ==> InStep())
      ensures Refreshed(code, registered, a, old(history), old(lastId), old(schema), history, lastId, schema,
        st.Success?)
      ensures st.Success? ==>
        Names(history) == Plan(registered, []) && forall i | 0 <= i < |history| :: history[i].batch == 1
      ensures st.Success? && Invertible(code) && old(InStep()) && !baselined ==>
        schema == Fold(code, Plan(registered, []), base)
      ensures Ascending(Names(old(history))) ==> Ascending(Names(history))
      ensures old(BatchesOk(history)) ==> BatchesOk(history)
    {
      hide HistoryOk, BatchesOk, Unfold, Reverted, Ascending, Invertible, AllVersioned, Distinct, Names, CanRevert,
        WillRevert, RevertCount, Plan, RanPlan, Pending, Fold, Descending;
      ghost var h0, s0, id0 := history, schema, lastId;
      NothingReverted(code, registered, history, schema);
      EmptyNames();
      if !a.locked || !a.read {
        return Failure;
      }
      var executed := Descending(history);
      if |executed| > 0 {
        WillRevertAll(code, registered, history, a.downs);
        st := RollbackUnderLock(|executed|, a.reread, a.downs);
        if !a.reread {
          RevertedNone(code, registered, h0, s0, history, schema);
        }
        if st.Failure? {
          return;
        }
      }
      ghost var s1 := schema;
      RevertedAll(code, registered, h0, s0, s1);
      st := RunPending(false, a.sums, a.batchQuery, a.ups);
      RanPlanFromNothing(code, registered, a.batchQuery, id0, s1, history, lastId, schema);
      FirstBatch(code, registered, a.batchQuery, id0, s1, history, lastId, schema);
      OneBatch(history);
    }

    /**
     Any sequence of the operator's commands, with any answers, from any state: ids ascend, names are distinct,
     the schema stays in step with the table if every Down undoes its Up, and without baseline and out-of-order
     the names stay in ascending version order. The batches stay in order if the run was harmless: the query for
     the highest batch failed in no Migrate that found a batch above 1.
     */
    method Operate(commands: seq<Command>) returns (harmless: bool)
      requires Valid()
      requires forall i | 0 <= i < |commands| :: commands[i].Register? ==> Versioned(commands[i].name)
      modifies this`registered, this`history, this`lastId, this`schema, this`baselined
      ensures Valid() && (Invertible(code) && old(InStep()) ==> InStep())
      ensures old(Ascending(Names(history))) && !outOfOrder && !baselineOnMigrate ==> Ascending(Names(history))
      ensures old(BatchesOk(history)) && harmless ==> BatchesOk(history)
      ensures (forall i | 0 <= i < |commands| && commands[i].Migrate? :: commands[i].answers.batchQuery) ==> harmless
    {
      hide HistoryOk, BatchesOk, Unfold, Fold, Reverted, RanPlan, Migrated, Refreshed, Ascending, Invertible,
        AllVersioned, Distinct, Names, Plan, Pending, Versioned;
      harmless := true;
      for i := 0 to |commands|
        invariant Valid() && (Invertible(code) && old(InStep()) ==> InStep())
        invariant old(Ascending(Names(history))) && !outOfOrder && !baselineOnMigrate ==> Ascending(Names(history))
        invariant old(BatchesOk(history)) && harmless ==> BatchesOk(history)
        invariant (forall j | 0 <= j < i && commands[j].Migrate? :: commands[j].answers.batchQuery) ==> harmless
      {
        var st;
        match commands[i] {
          case Register(name) =>
            if name !in registered {
              Register(name);
            }
          case Migrate(a) =>
            harmless := harmless && (a.batchQuery || MaxBatch(history) <= 1);
            st := Migrate(a);
          case Rollback(steps, a) => st := Rollback(steps, a);
          case Reset(a) => st := Reset(a);
          case Refresh(a) => st := Refresh(a);
        }
      }
    }
  }
}
