/**
 The dead letter queue and its retry machine (framework/event/retry_manager.go, event_bus.go:690-745).

 Rows are keyed by id. One runner calls `ProcessDLQ` again and again; it may die at any point, and any statement
 may be refused by the database. Such answers are inputs, so a statement about all answers is a statement about
 all failures and crashes. Time is a clock in milliseconds that never goes back.
 */
module RetryManager {
  import opened Wrappers

  datatype RowStatus = Pending | Failed | Retrying

  datatype Row = Row(status: RowStatus, retries: nat, nextRetryAt: int, updatedAt: int)

  /** One redispatch of a row: its number among the redispatches of that row, and when it was made. */
  datatype Attempt = Attempt(id: nat, number: nat, at: int)

  const LEASE := 300000
  const BATCH_LIMIT := 10
  const DEFAULT_WAIT := 30000

  /** How long `CalculateNextRetry` waits after this many attempts; `None` is an interval that does not parse. */
  function Wait(attempts: nat, intervals: seq<Option<int>>): int {
    if intervals == [] then DEFAULT_WAIT
    else
      var i := if attempts >= |intervals| then |intervals| - 1 else attempts;
      match intervals[i]
      case None => DEFAULT_WAIT
      case Some(d) => d
  }

  /** The interval for the number of attempts made, the last one once there are no more, and else 30 seconds. */
  lemma WaitExactly(attempts: nat, intervals: seq<Option<int>>)
    ensures
      var chosen := if intervals == [] then None
        else if attempts < |intervals| then intervals[attempts] else intervals[|intervals| - 1];
      Wait(attempts, intervals) == if chosen.Some? then chosen.value else 30_000
  {
  }

  predicate Claimable(r: Row) {
    r.status.Pending? || r.status.Failed?
  }

  /** The rows the selection may return. */
  predicate Eligible(r: Row, maxRetries: nat, now: int) {
    Claimable(r) && r.retries < maxRetries && (r.nextRetryAt <= now || r.retries == 0)
  }

  /** A row is due while it has retries left, if it is pending, or has failed and its time has come. */
  lemma DueExactly(r: Row, maxRetries: nat, now: int)
    ensures Eligible(r, maxRetries, now) <==>
      && (r.status == Pending || r.status == Failed)
      && r.retries < maxRetries
      && (r.retries > 0 ==> now >= r.nextRetryAt)
  {
  }

  predicate Stale(r: Row, now: int) {
    r.status.Retrying? && r.updatedAt < now - LEASE
  }

  /** The table after the leases of a crashed runner are taken back. */
  function Recovered(rows: map<nat, Row>, now: int): map<nat, Row> {
    map id | id in rows :: if Stale(rows[id], now) then rows[id].(status := Failed, updatedAt := now) else rows[id]
  }

  predicate NoneTwice(ids: seq<nat>) {
    forall i, j | 0 <= i < j < |ids| :: ids[i] != ids[j]
  }

  /**
   What the database may answer to the selection: eligible rows, each once, ten at most, and fewer only if there
   are no more.
   */
  ghost predicate Answer(rows: map<nat, Row>, maxRetries: nat, now: int, ids: seq<nat>) {
    && |ids| <= BATCH_LIMIT
    && NoneTwice(ids)
    && (forall i | 0 <= i < |ids| :: ids[i] in rows && Eligible(rows[ids[i]], maxRetries, now))
    && (|ids| < BATCH_LIMIT ==> forall id | id in rows && Eligible(rows[id], maxRetries, now) :: id in ids)
  }

  function CountOf(log: seq<Attempt>, id: nat): nat {
    if log == [] then 0
    else CountOf(log[..|log| - 1], id) + if log[|log| - 1].id == id then 1 else 0
  }

  /** Attempts of one row are numbered 1, 2, 3, ... */
  ghost predicate Numbered(log: seq<Attempt>) {
    forall i | 0 <= i < |log| :: log[i].number == CountOf(log[..i], log[i].id) + 1
  }

  /** After an attempt, the next one of the same row waits as long as the configured interval says. */
  ghost predicate Spaced(log: seq<Attempt>, intervals: seq<Option<int>>) {
    forall i, j | 0 <= i < j < |log| && log[i].id == log[j].id ::
      log[j].at >= log[i].at + Wait(log[i].number, intervals)
  }

  /** What a row knows of its attempts. */
  ghost predicate RowOk(id: nat, r: Row, log: seq<Attempt>, maxRetries: nat, intervals: seq<Option<int>>, clock: int) {
    && r.retries == CountOf(log, id) <= maxRetries
    && r.updatedAt <= clock
    && forall i | 0 <= i < |log| && log[i].id == id ::
         log[i].at + Wait(log[i].number, intervals) <= if r.nextRetryAt > r.updatedAt then r.nextRetryAt
           else r.updatedAt
  }

  ghost predicate TableOk(rows: map<nat, Row>, log: seq<Attempt>, nextId: nat, maxRetries: nat,
                          intervals: seq<Option<int>>, clock: int) {
    && (forall id | id in rows :: id < nextId && RowOk(id, rows[id], log, maxRetries, intervals, clock))
    && (forall id: nat :: CountOf(log, id) <= if id < nextId then maxRetries else 0)
  }

  lemma CountMore(log: seq<Attempt>, a: Attempt, id: nat)
    ensures CountOf(log + [a], id) == CountOf(log, id) + if a.id == id then 1 else 0
  {
    assert (log + [a])[..|log|] == log;
  }

  lemma {:induction false} CountNone(log: seq<Attempt>, id: nat)
    requires CountOf(log, id) == 0
    ensures forall i | 0 <= i < |log| :: log[i].id != id
  {
    if log != [] {
      CountNone(log[..|log| - 1], id);
    }
  }

  /** Nobody is attempted more often than configured, so a bound on what was ever put in bounds all attempts. */
  lemma {:induction false} AttemptsBounded(log: seq<Attempt>, inserted: nat, maxRetries: nat)
    requires forall id: nat :: CountOf(log, id) <= if id < inserted then maxRetries else 0
    ensures |log| <= inserted * maxRetries
    decreases inserted
  {
    hide CountOf, Others;
    if inserted == 0 {
      if log != [] {
        LastCounts(log);
      }
    } else {
      var rest := Others(log, inserted - 1);
      OthersLength(log, inserted - 1);
      forall x: nat ensures CountOf(rest, x) <= if x < inserted - 1 then maxRetries else 0 {
        OthersCount(log, inserted - 1, x);
      }
      AttemptsBounded(rest, inserted - 1, maxRetries);
      OneMoreRow(inserted, maxRetries);
    }
  }

  lemma LastCounts(log: seq<Attempt>)
    requires log != []
    ensures CountOf(log, log[|log| - 1].id) > 0
  {
  }

  lemma OneMoreRow(rows: nat, each: nat)
    requires rows > 0
    ensures rows * each == (rows - 1) * each + each
  {
  }

  /** The log without the attempts of one row. */
  function Others(log: seq<Attempt>, id: nat): seq<Attempt> {
    if log == [] then []
    else Others(log[..|log| - 1], id) + if log[|log| - 1].id == id then [] else [log[|log| - 1]]
  }

  lemma {:induction false} OthersLength(log: seq<Attempt>, id: nat)
    ensures |Others(log, id)| + CountOf(log, id) == |log|
  {
    if log != [] {
      OthersLength(log[..|log| - 1], id);
    }
  }

  lemma {:induction false} OthersCount(log: seq<Attempt>, id: nat, x: nat)
    ensures CountOf(Others(log, id), x) == if x == id then 0 else CountOf(log, x)
  {
    if log != [] {
      var last, rest := log[|log| - 1], log[..|log| - 1];
      OthersCount(rest, id, x);
      assert Others(rest, id) + [] == Others(rest, id);
      CountMore(Others(rest, id), last, x);
    }
  }

  /** Redispatching an eligible row keeps every count, number, wait and bound. */
  lemma AttemptOk(log: seq<Attempt>, id: nat, r: Row, maxRetries: nat, intervals: seq<Option<int>>, selected: int,
                  clock: int)
    requires RowOk(id, r, log, maxRetries, intervals, clock) && Eligible(r, maxRetries, selected)
      && r.updatedAt <= selected <= clock
    requires Numbered(log) && Spaced(log, intervals)
    ensures var a := Attempt(id, r.retries + 1, clock);
      && Numbered(log + [a]) && Spaced(log + [a], intervals)
      && RowOk(id, Row(Retrying, r.retries + 1, clock + Wait(r.retries + 1, intervals), clock), log + [a], maxRetries,
        intervals, clock)
  {
    hide Numbered, Spaced, RowOk;
    AttemptNumbered(log, Attempt(id, r.retries + 1, clock), r, maxRetries, intervals, clock);
    PastWaits(id, r, log, maxRetries, intervals, selected, clock);
    AttemptSpaced(log, Attempt(id, r.retries + 1, clock), intervals);
    AttemptRow(log, id, r, maxRetries, intervals, clock);
  }

  /** All the waits of an eligible row are over. */
  lemma PastWaits(id: nat, r: Row, log: seq<Attempt>, maxRetries: nat, intervals: seq<Option<int>>, selected: int,
                  clock: int)
    requires RowOk(id, r, log, maxRetries, intervals, clock) && Eligible(r, maxRetries, selected)
      && r.updatedAt <= selected <= clock
    ensures WaitsOver(log, id, intervals, clock)
  {
    if r.retries == 0 {
      CountNone(log, id);
    }
  }

  ghost predicate WaitsOver(log: seq<Attempt>, id: nat, intervals: seq<Option<int>>, now: int) {
    forall i | 0 <= i < |log| && log[i].id == id :: log[i].at + Wait(log[i].number, intervals) <= now
  }

  lemma AttemptNumbered(log: seq<Attempt>, a: Attempt, r: Row, maxRetries: nat, intervals: seq<Option<int>>, clock: int)
    requires Numbered(log) && RowOk(a.id, r, log, maxRetries, intervals, clock) && a.number == r.retries + 1
    ensures Numbered(log + [a])
  {
    var more := log + [a];
    forall i | 0 <= i < |more| ensures more[i].number == CountOf(more[..i], more[i].id) + 1 {
      assert more[..i] == log[..i];
      assert i == |log| ==> log[..i] == log;
    }
  }

  lemma AttemptSpaced(log: seq<Attempt>, a: Attempt, intervals: seq<Option<int>>)
    requires Spaced(log, intervals) && WaitsOver(log, a.id, intervals, a.at)
    ensures Spaced(log + [a], intervals)
  {
  }

  lemma AttemptRow(log: seq<Attempt>, id: nat, r: Row, maxRetries: nat, intervals: seq<Option<int>>, clock: int)
    requires RowOk(id, r, log, maxRetries, intervals, clock) && WaitsOver(log, id, intervals, clock)
      && r.retries < maxRetries
    ensures RowOk(id, Row(Retrying, r.retries + 1, clock + Wait(r.retries + 1, intervals), clock),
                  log + [Attempt(id, r.retries + 1, clock)], maxRetries, intervals, clock)
  {
    CountMore(log, Attempt(id, r.retries + 1, clock), id);
  }

  /** A row's standing does not depend on the attempts of other rows. */
  lemma OtherAttempt(log: seq<Attempt>, a: Attempt, id: nat, r: Row, maxRetries: nat, intervals: seq<Option<int>>,
                     clock: int, later: int)
    requires RowOk(id, r, log, maxRetries, intervals, clock) && a.id != id && clock <= later
    ensures RowOk(id, r, log + [a], maxRetries, intervals, later)
  {
    CountMore(log, a, id);
  }

  /** Letting go of a lease, or waiting, changes no row's standing. */
  lemma LaterOk(log: seq<Attempt>, id: nat, r: Row, r': Row, maxRetries: nat, intervals: seq<Option<int>>, clock: int,
                later: int)
    requires RowOk(id, r, log, maxRetries, intervals, clock) && clock <= later
    requires r'.retries == r.retries && r'.nextRetryAt == r.nextRetryAt && r.updatedAt <= r'.updatedAt <= later
    ensures RowOk(id, r', log, maxRetries, intervals, later)
  {
  }

  lemma RowClock(id: nat, r: Row, log: seq<Attempt>, maxRetries: nat, intervals: seq<Option<int>>, clock: int)
    requires RowOk(id, r, log, maxRetries, intervals, clock)
    ensures r.updatedAt <= clock
  {
  }

  lemma TableLater(rows: map<nat, Row>, rows': map<nat, Row>, log: seq<Attempt>, nextId: nat,
                   maxRetries: nat, intervals: seq<Option<int>>, clock: int, later: int)
    requires TableOk(rows, log, nextId, maxRetries, intervals, clock) && clock <= later
    requires forall id | id in rows' ::
               && id in rows && rows'[id].retries == rows[id].retries && rows'[id].nextRetryAt == rows[id].nextRetryAt
               && (rows'[id].updatedAt == rows[id].updatedAt || rows[id].updatedAt <= rows'[id].updatedAt <= later)
    ensures TableOk(rows', log, nextId, maxRetries, intervals, later)
  {
    hide RowOk;
    forall id | id in rows' ensures RowOk(id, rows'[id], log, maxRetries, intervals, later) {
      RowClock(id, rows[id], log, maxRetries, intervals, clock);
      LaterOk(log, id, rows[id], rows'[id], maxRetries, intervals, clock, later);
    }
  }

  lemma TableAttempt(rows: map<nat, Row>, log: seq<Attempt>, nextId: nat, maxRetries: nat, intervals: seq<Option<int>>,
                     selected: int, clock: int, id: nat)
    requires TableOk(rows, log, nextId, maxRetries, intervals, clock)
    requires id in rows && Eligible(rows[id], maxRetries, selected) && rows[id].updatedAt <= selected <= clock
    requires Numbered(log) && Spaced(log, intervals)
    ensures var a, n := Attempt(id, rows[id].retries + 1, clock), rows[id].retries + 1;
      && Numbered(log + [a]) && Spaced(log + [a], intervals)
      && TableOk(rows[id := Row(Retrying, n, clock + Wait(n, intervals), clock)], log + [a], nextId, maxRetries,
        intervals, clock)
  {
    hide RowOk, Numbered, Spaced, Eligible;
    var n := rows[id].retries + 1;
    var a, rows' := Attempt(id, n, clock), rows[id := Row(Retrying, n, clock + Wait(n, intervals), clock)];
    AttemptOk(log, id, rows[id], maxRetries, intervals, selected, clock);
    forall x | x in rows' ensures RowOk(x, rows'[x], log + [a], maxRetries, intervals, clock) {
      if x != id {
        OtherAttempt(log, a, x, rows[x], maxRetries, intervals, clock, clock);
      }
    }
    RowCount(id, rows'[id], log + [a], maxRetries, intervals, clock);
    forall x: nat ensures CountOf(log + [a], x) <= if x < nextId then maxRetries else 0 {
      CountMore(log, a, x);
    }
  }

  lemma RowCount(id: nat, r: Row, log: seq<Attempt>, maxRetries: nat, intervals: seq<Option<int>>, clock: int)
    requires RowOk(id, r, log, maxRetries, intervals, clock)
    ensures CountOf(log, id) <= maxRetries
  {
  }

  lemma NewRowOk(id: nat, r: Row, log: seq<Attempt>, maxRetries: nat, intervals: seq<Option<int>>, clock: int)
    requires CountOf(log, id) == 0 && r.retries == 0 && r.updatedAt <= clock
    ensures RowOk(id, r, log, maxRetries, intervals, clock)
  {
    CountNone(log, id);
  }

  lemma TableNew(rows: map<nat, Row>, r: Row, log: seq<Attempt>, nextId: nat, maxRetries: nat,
                 intervals: seq<Option<int>>, clock: int)
    requires TableOk(rows, log, nextId, maxRetries, intervals, clock) && r.retries == 0 && r.updatedAt <= clock
    ensures TableOk(rows[nextId := r], log, nextId + 1, maxRetries, intervals, clock)
  {
    hide RowOk;
    NewRowOk(nextId, r, log, maxRetries, intervals, clock);
  }

  // ---------------------------------------------------------------------------------------------

  /** How an attempt ended: `Refused` is none, `Died` and `Unsaved` leave the row claimed. */
  datatype Outcome = Refused | Died | Unsaved | Delivered | FailedAgain

  /**
   What happens to one selected row: whether its claim goes through, whether the process lives to see the outcome,
   whether the listener accepts the event, and whether the outcome is saved.
   */
  datatype Answers = Answers(claimed: bool, alive: bool, delivered: bool, saved: bool)

  function OutcomeOf(a: Answers): Outcome {
    if !a.claimed then Refused
    else if !a.alive then Died
    else if !a.saved then Unsaved
    else if a.delivered then Delivered
    else FailedAgain
  }

  /** A row that has just been attempted: gone, failed, or still claimed, with this many retries. */
  predicate Ended(id: nat, rows: map<nat, Row>, retries: nat, o: Outcome) {
    if o.Delivered? then id !in rows
    else id in rows && rows[id].retries == retries && rows[id].status == if o.FailedAgain? then Failed else Retrying
  }

  datatype Run = Interrupted | Finished(selected: nat, refused: nat)

  /** What one run may do to a row. */
  ghost predicate OneAttempt(id: nat, o: Outcome, rows: map<nat, Row>, log: seq<Attempt>, rows': map<nat, Row>,
                             log': seq<Attempt>, maxRetries: nat, now: int) {
    if CountOf(log', id) == CountOf(log, id) then
      && (id in rows' <==> id in rows)
      && (id in rows ==>
            || rows'[id] == rows[id]
            || (Stale(rows[id], now)
                && rows'[id] == rows[id].(status := Failed, updatedAt := rows'[id].updatedAt)))
    else
      && CountOf(log', id) == CountOf(log, id) + 1 && !o.Refused?
      && id in rows && rows[id].retries < maxRetries && (Eligible(rows[id], maxRetries, now) || Stale(rows[id], now))
      && Ended(id, rows', rows[id].retries + 1, o)
  }

  predicate SameRow(id: nat, rows: map<nat, Row>, table: map<nat, Row>) {
    (id in rows <==> id in table) && (id in rows ==> rows[id] == table[id])
  }

  /** After the first `k` rows of a run: a row is attempted once at most, and otherwise as it was selected. */
  ghost predicate Progress(ids: seq<nat>, k: nat, answers: nat -> Answers, table: map<nat, Row>, log0: seq<Attempt>,
                           rows: map<nat, Row>, log: seq<Attempt>) {
    && k <= |ids|
    && forall id: nat ::
         if CountOf(log, id) == CountOf(log0, id) then SameRow(id, rows, table)
         else
           && CountOf(log, id) == CountOf(log0, id) + 1 && id in ids[..k] && id in table
           && !OutcomeOf(answers(id)).Refused? && Ended(id, rows, table[id].retries + 1, OutcomeOf(answers(id)))
  }

  lemma OutcomeCases(a: Answers)
    ensures OutcomeOf(a).Refused? <==> !a.claimed
    ensures OutcomeOf(a).Died? <==> a.claimed && !a.alive
    ensures OutcomeOf(a).Unsaved? <==> a.claimed && a.alive && !a.saved
    ensures OutcomeOf(a).Delivered? <==> a.claimed && a.alive && a.saved && a.delivered
    ensures OutcomeOf(a).FailedAgain? <==> a.claimed && a.alive && a.saved && !a.delivered
  {
  }

  lemma ProgressStart(ids: seq<nat>, answers: nat -> Answers, table: map<nat, Row>, log0: seq<Attempt>)
    ensures Progress(ids, 0, answers, table, log0, table, log0)
  {
  }

  lemma ProgressStep(ids: seq<nat>, k: nat, answers: nat -> Answers, table: map<nat, Row>, log0: seq<Attempt>,
                     r1: map<nat, Row>, log1: seq<Attempt>, r2: map<nat, Row>, log2: seq<Attempt>, o: Outcome)
    requires k < |ids| && Progress(ids, k, answers, table, log0, r1, log1)
      && NoneTwice(ids)
    requires ids[k] in table && o == OutcomeOf(answers(ids[k]))
    requires if o.Refused? then log2 == log1 && r2 == r1
             else
               && (exists n, at :: log2 == log1 + [Attempt(ids[k], n, at)])
               && Ended(ids[k], r2, table[ids[k]].retries + 1, o)
    requires forall x: nat | x != ids[k] :: SameRow(x, r2, r1)
    ensures Progress(ids, k + 1, answers, table, log0, r2, log2) && CountOf(log1, ids[k]) == CountOf(log0, ids[k])
    ensures forall x: nat :: CountOf(log2, x) == CountOf(log1, x) + if !o.Refused? && x == ids[k] then 1 else 0
  {
    if !o.Refused? {
      var n, at :| log2 == log1 + [Attempt(ids[k], n, at)];
      forall x: nat ensures CountOf(log2, x) == CountOf(log1, x) + if x == ids[k] then 1 else 0 {
        CountMore(log1, Attempt(ids[k], n, at), x);
      }
    }
    assert ids[..k + 1] == ids[..k] + [ids[k]];
    assert ids[k] !in ids[..k];
    forall x: nat
      ensures if CountOf(log2, x) == CountOf(log0, x) then SameRow(x, r2, table)
              else
                && CountOf(log2, x) == CountOf(log0, x) + 1 && x in ids[..k + 1] && x in table
                && !OutcomeOf(answers(x)).Refused? && Ended(x, r2, table[x].retries + 1, OutcomeOf(answers(x)))
    {
      assert x != ids[k] ==> SameRow(x, r2, r1);
    }
  }

  /**
   Each of the first `k` rows was attempted once if its claim went through, and none of the attempts killed the
   process.
   */
  ghost predicate Handled(ids: seq<nat>, k: nat, answers: nat -> Answers, log0: seq<Attempt>, log: seq<Attempt>) {
    k <= |ids| && forall j | 0 <= j < k ::
      && (answers(ids[j]).claimed ==> answers(ids[j]).alive)
      && CountOf(log, ids[j]) == CountOf(log0, ids[j]) + if answers(ids[j]).claimed then 1 else 0
  }

  lemma HandledStep(ids: seq<nat>, k: nat, answers: nat -> Answers, log0: seq<Attempt>, log1: seq<Attempt>,
                    log2: seq<Attempt>)
    requires k < |ids| && Handled(ids, k, answers, log0, log1) && NoneTwice(ids)
    requires answers(ids[k]).claimed ==> answers(ids[k]).alive
    requires CountOf(log1, ids[k]) == CountOf(log0, ids[k])
    requires forall x: nat ::
      CountOf(log2, x) == CountOf(log1, x) + if answers(ids[k]).claimed && x == ids[k] then 1 else 0
    ensures Handled(ids, k + 1, answers, log0, log2)
  {
    hide CountOf;
  }

  /** The rows whose turn is still to come are as they were when they were selected. */
  ghost predicate StillAsRead(ids: seq<nat>, k: nat, rows: map<nat, Row>, table: map<nat, Row>) {
    forall j | k <= j < |ids| :: SameRow(ids[j], rows, table)
  }

  lemma StillAsReadStart(ids: seq<nat>, table: map<nat, Row>)
    ensures StillAsRead(ids, 0, table, table)
  {
  }

  lemma NextAsRead(ids: seq<nat>, k: nat, rows: map<nat, Row>, table: map<nat, Row>)
    requires k < |ids| && StillAsRead(ids, k, rows, table)
    ensures ids[k] in rows <==> ids[k] in table
    ensures ids[k] in rows ==> rows[ids[k]] == table[ids[k]]
  {
  }

  lemma StillAsReadStep(ids: seq<nat>, k: nat, rows: map<nat, Row>, rows': map<nat, Row>, table: map<nat, Row>)
    requires k < |ids| && StillAsRead(ids, k, rows, table) && NoneTwice(ids)
    requires forall x: nat | x != ids[k] :: SameRow(x, rows', rows)
    ensures StillAsRead(ids, k + 1, rows', table)
  {
    forall j | k + 1 <= j < |ids| ensures SameRow(ids[j], rows', table) {
      assert SameRow(ids[j], rows', rows);
    }
  }

  lemma HandledStart(ids: seq<nat>, answers: nat -> Answers, log0: seq<Attempt>)
    ensures Handled(ids, 0, answers, log0, log0)
  {
  }

  /** A run under way, after its first `k` rows. */
  ghost predicate Under(ids: seq<nat>, k: nat, answers: nat -> Answers, table: map<nat, Row>, log0: seq<Attempt>,
                        rows: map<nat, Row>, log: seq<Attempt>) {
    && Progress(ids, k, answers, table, log0, rows, log)
    && StillAsRead(ids, k, rows, table)
    && Handled(ids, k, answers, log0, log)
  }

  lemma UnderStart(ids: seq<nat>, answers: nat -> Answers, table: map<nat, Row>, log0: seq<Attempt>)
    ensures Under(ids, 0, answers, table, log0, table, log0)
  {
    hide Progress, StillAsRead, Handled;
    ProgressStart(ids, answers, table, log0);
    HandledStart(ids, answers, log0);
    StillAsReadStart(ids, table);
  }

  lemma UnderStep(ids: seq<nat>, k: nat, answers: nat -> Answers, table: map<nat, Row>, log0: seq<Attempt>,
                  r1: map<nat, Row>, log1: seq<Attempt>, r2: map<nat, Row>, log2: seq<Attempt>, o: Outcome)
    requires k < |ids| && Under(ids, k, answers, table, log0, r1, log1) && NoneTwice(ids)
    requires ids[k] in table && o == OutcomeOf(answers(ids[k]))
    requires if o.Refused? then log2 == log1 && r2 == r1
             else
               && (exists n, at :: log2 == log1 + [Attempt(ids[k], n, at)])
               && Ended(ids[k], r2, table[ids[k]].retries + 1, o)
    requires forall x: nat | x != ids[k] :: SameRow(x, r2, r1)
    ensures Progress(ids, k + 1, answers, table, log0, r2, log2)
    ensures !o.Died? ==> Under(ids, k + 1, answers, table, log0, r2, log2)
    ensures o.Died? ==> !answers(ids[k]).alive
  {
    hide Progress, StillAsRead, Handled, NoneTwice, SameRow, Ended, OutcomeOf, CountOf;
    StillAsReadStep(ids, k, r1, r2, table);
    OutcomeCases(answers(ids[k]));
    ProgressStep(ids, k, answers, table, log0, r1, log1, r2, log2, o);
    if !o.Died? {
      HandledStep(ids, k, answers, log0, log1, log2);
    }
  }

  lemma UnderMeans(ids: seq<nat>, k: nat, answers: nat -> Answers, table: map<nat, Row>, log0: seq<Attempt>,
                   rows: map<nat, Row>, log: seq<Attempt>)
    requires Under(ids, k, answers, table, log0, rows, log)
    ensures Progress(ids, k, answers, table, log0, rows, log) && Handled(ids, k, answers, log0, log)
    ensures k < |ids| ==>
      && (ids[k] in rows <==> ids[k] in table)
      && (ids[k] in rows ==> rows[ids[k]] == table[ids[k]])
  {
    hide Progress, Handled, StillAsRead;
    if k < |ids| {
      NextAsRead(ids, k, rows, table);
    }
  }

  lemma HandledIn(ids: seq<nat>, answers: nat -> Answers, log0: seq<Attempt>, log: seq<Attempt>, id: nat)
    requires Handled(ids, |ids|, answers, log0, log) && id in ids
    ensures CountOf(log, id) == CountOf(log0, id) + if answers(id).claimed then 1 else 0
  {
  }

  lemma ProgressEnd(ids: seq<nat>, k: nat, answers: nat -> Answers, r0: map<nat, Row>, t0: int, table: map<nat, Row>,
                    selected: int, log0: seq<Attempt>, rows: map<nat, Row>, log: seq<Attempt>, maxRetries: nat,
                    now: int)
    requires Progress(ids, k, answers, table, log0, rows, log) && table == Recovered(r0, t0) && t0 <= selected <= now
    requires forall i | 0 <= i < |ids| :: ids[i] in table && Eligible(table[ids[i]], maxRetries, selected)
    ensures forall id: nat :: OneAttempt(id, OutcomeOf(answers(id)), r0, log0, rows, log, maxRetries, now)
  {
    hide CountOf;
    forall id: nat ensures OneAttempt(id, OutcomeOf(answers(id)), r0, log0, rows, log, maxRetries, now) {
      assert id in ids[..k] ==> id in table && Eligible(table[id], maxRetries, selected);
    }
  }

  /** Nothing attempted: at most the stale leases are gone. */
  lemma NoAttempts(answers: nat -> Answers, r0: map<nat, Row>, log: seq<Attempt>, t0: int, rows: map<nat, Row>,
                   maxRetries: nat, now: int)
    requires (rows == r0 || rows == Recovered(r0, t0)) && t0 <= now
    ensures forall id: nat :: OneAttempt(id, OutcomeOf(answers(id)), r0, log, rows, log, maxRetries, now)
  {
  }

  lemma AnswerMeans(rows: map<nat, Row>, maxRetries: nat, now: int, ids: seq<nat>)
    requires Answer(rows, maxRetries, now, ids)
    ensures |ids| <= BATCH_LIMIT && NoneTwice(ids)
    ensures forall i | 0 <= i < |ids| :: ids[i] in rows && Eligible(rows[ids[i]], maxRetries, now)
  {
  }

  lemma TableClock(rows: map<nat, Row>, log: seq<Attempt>, nextId: nat, maxRetries: nat, intervals: seq<Option<int>>,
                   clock: int)
    requires TableOk(rows, log, nextId, maxRetries, intervals, clock)
    ensures forall id | id in rows :: rows[id].updatedAt <= clock
  {
  }

  lemma DueIsSelected(id: nat, r0: map<nat, Row>, t0: int, table: map<nat, Row>, selected: int, maxRetries: nat,
                      ids: seq<nat>)
    requires id in r0 && Eligible(r0[id], maxRetries, t0) && table == Recovered(r0, t0) && t0 <= selected
    requires Answer(table, maxRetries, selected, ids) && |ids| < BATCH_LIMIT
    ensures id in ids
  {
    assert table[id] == r0[id];
  }

  /** With fewer rows selected than a run takes, every row that was due has been handled. */
  lemma DueAttempted(ids: seq<nat>, answers: nat -> Answers, r0: map<nat, Row>, t0: int, table: map<nat, Row>,
                     selected: int, log0: seq<Attempt>, log: seq<Attempt>, maxRetries: nat)
    requires table == Recovered(r0, t0) && t0 <= selected
    requires Answer(table, maxRetries, selected, ids) && |ids| < BATCH_LIMIT
    requires Handled(ids, |ids|, answers, log0, log)
    ensures forall id: nat | id in r0 && Eligible(r0[id], maxRetries, t0) ::
      CountOf(log, id) == CountOf(log0, id) + if answers(id).claimed then 1 else 0
  {
    hide *;
    forall id: nat | id in r0 && Eligible(r0[id], maxRetries, t0)
      ensures CountOf(log, id) == CountOf(log0, id) + if answers(id).claimed then 1 else 0
    {
      DueIsSelected(id, r0, t0, table, selected, maxRetries, ids);
      HandledIn(ids, answers, log0, log, id);
    }
  }

  // ---------------------------------------------------------------------------------------------
  // Retries that remain.

  /** How many more attempts a row may get. */
  function LeftAt(rows: map<nat, Row>, id: nat, maxRetries: nat): nat {
    if id in rows && rows[id].retries < maxRetries then maxRetries - rows[id].retries else 0
  }

  /** The same for all rows with an id below `n`. */
  function Remaining(rows: map<nat, Row>, maxRetries: nat, n: nat): nat {
    if n == 0 then 0 else Remaining(rows, maxRetries, n - 1) + LeftAt(rows, n - 1, maxRetries)
  }

  lemma {:induction false} RemainingChanged(rows: map<nat, Row>, rows': map<nat, Row>, maxRetries: nat, n: nat, id: nat)
    requires forall x: nat | x != id :: LeftAt(rows', x, maxRetries) == LeftAt(rows, x, maxRetries)
    ensures Remaining(rows', maxRetries, n) == Remaining(rows, maxRetries, n)
      + if id < n then LeftAt(rows', id, maxRetries) - LeftAt(rows, id, maxRetries) else 0
  {
    if n > 0 {
      RemainingChanged(rows, rows', maxRetries, n - 1, id);
    }
  }

  /** An attempt uses up one of the remaining retries of its row, or all of them. */
  lemma AttemptUsesUp(rows: map<nat, Row>, rows': map<nat, Row>, maxRetries: nat, n: nat, id: nat, o: Outcome)
    requires id in rows && id < n && rows[id].retries < maxRetries && Ended(id, rows', rows[id].retries + 1, o)
    requires forall x: nat | x != id :: SameRow(x, rows', rows)
    ensures Remaining(rows', maxRetries, n) < Remaining(rows, maxRetries, n)
  {
    forall x: nat | x != id ensures LeftAt(rows', x, maxRetries) == LeftAt(rows, x, maxRetries) {
      assert SameRow(x, rows', rows);
    }
    RemainingChanged(rows, rows', maxRetries, n, id);
  }

  lemma RecoveredRemaining(rows: map<nat, Row>, now: int, maxRetries: nat, n: nat)
    ensures Remaining(Recovered(rows, now), maxRetries, n) == Remaining(rows, maxRetries, n)
  {
    RemainingChanged(rows, Recovered(rows, now), maxRetries, n, n);
  }

  lemma NewRowRemaining(rows: map<nat, Row>, r: Row, log: seq<Attempt>, nextId: nat, maxRetries: nat,
                        intervals: seq<Option<int>>, clock: int)
    requires TableOk(rows, log, nextId, maxRetries, intervals, clock) && r.retries == 0
    ensures Remaining(rows[nextId := r], maxRetries, nextId + 1) == Remaining(rows, maxRetries, nextId) + maxRetries
  {
    RemainingChanged(rows, rows[nextId := r], maxRetries, nextId, nextId);
  }

  lemma RowsBelow(rows: map<nat, Row>, log: seq<Attempt>, nextId: nat, maxRetries: nat, intervals: seq<Option<int>>,
                  clock: int)
    requires TableOk(rows, log, nextId, maxRetries, intervals, clock)
    ensures forall id | id in rows :: id < nextId
  {
  }

  /** What the queue goes through: a listener fails, the runner has its turn, or time passes. */
  datatype Event = ListenerFailed(ok: bool) | Turn(recovered: bool, found: bool, answers: nat -> Answers) | Pause

  function FailuresIn(events: seq<Event>): nat {
    if events == [] then 0
    else FailuresIn(events[..|events| - 1]) + if events[|events| - 1].ListenerFailed? then 1 else 0
  }

  lemma MoreFailures(maxRetries: nat, n: nat)
    ensures maxRetries * (n + 1) == maxRetries * n + maxRetries
  {
  }

  lemma LogBounded(rows: map<nat, Row>, log: seq<Attempt>, nextId: nat, maxRetries: nat, intervals: seq<Option<int>>,
                   clock: int)
    requires TableOk(rows, log, nextId, maxRetries, intervals, clock)
    ensures |log| <= nextId * maxRetries
  {
    AttemptsBounded(log, nextId, maxRetries);
  }

  class RetryManager {
    const maxRetries: nat
    const intervals: seq<Option<int>>
    var clock: int
    var rows: map<nat, Row>
    var nextId: nat
    ghost var log: seq<Attempt>

    ghost predicate Valid()
      reads this
    {
      Numbered(log) && Spaced(log, intervals) && TableOk(rows, log, nextId, maxRetries, intervals, clock)
    }

    /** Attempts made so far, and the most that can still come without new rows. */
    ghost function Potential(): nat
      reads this
    {
      |log| + Remaining(rows, maxRetries, nextId)
    }

    constructor (maxRetries: nat, intervals: seq<Option<int>>, now: int)
      ensures Valid() && Potential() == 0 && rows == map[] && log == [] && nextId == 0 && clock == now
      ensures this.maxRetries == maxRetries && this.intervals == intervals
    {
      this.maxRetries, this.intervals, clock, rows, nextId, log := maxRetries, intervals, now, map[], 0, [];
    }

    /** Time passes. */
    method Tick()
      requires Valid()
      modifies this`clock
      ensures Valid() && clock >= old(clock) && Potential() == old(Potential())
    {
      var later: int := *;
      if later > clock {
        TableLater(rows, rows, log, nextId, maxRetries, intervals, clock, later);
        clock := later;
      }
    }

    /**
     `handleFailure`: a listener failed, and its event goes into the queue, where it is due at once, whatever the
     first interval.
     */
    method HandleFailure(ok: bool) returns (st: Status)
      requires Valid()
      modifies this`rows, this`nextId
      ensures Valid() && nextId == old(nextId) + (if ok then 1 else 0) && (st.Success? <==> ok)
      ensures st.Failure? ==> rows == old(rows)
      ensures Potential() == old(Potential()) + if ok then maxRetries else 0
      ensures st.Success? ==> rows == old(rows)[old(nextId) := Row(Pending, 0, clock + Wait(0, intervals), clock)]
      ensures st.Success? && maxRetries > 0 ==> Eligible(rows[old(nextId)], maxRetries, clock)
    {
      if !ok {
        return Failure;
      }
      var r := Row(Pending, 0, clock + Wait(0, intervals), clock);
      TableNew(rows, r, log, nextId, maxRetries, intervals, clock);
      NewRowRemaining(rows, r, log, nextId, maxRetries, intervals, clock);
      rows := rows[nextId := r];
      nextId := nextId + 1;
      st := Success;
    }

    /** The conditional update with which a runner claims a row. */
    method Claim(id: nat, nextRetry: int) returns (claimed: bool)
      modifies this`rows
      ensures claimed <==> id in old(rows) && (old(rows)[id].status == Pending || old(rows)[id].status == Failed)
      ensures rows == if claimed then old(rows)[id := Row(Retrying, old(rows)[id].retries + 1, nextRetry, clock)]
        else old(rows)
    {
      claimed := id in rows && Claimable(rows[id]);
      if claimed {
        rows := rows[id := Row(Retrying, rows[id].retries + 1, nextRetry, clock)];
      }
    }

    /** The leases of a runner that died are taken back. */
    method RecoverStaleLeases()
      requires Valid()
      modifies this`rows
      ensures Valid() && rows == Recovered(old(rows), clock) && Potential() == old(Potential())
      ensures rows.Keys == old(rows).Keys
      ensures forall id | id in rows ::
        var was := old(rows)[id];
        rows[id] == if was.status == Retrying && clock - was.updatedAt > 300_000
          then Row(Failed, was.retries, was.nextRetryAt, clock) else was
    {
      RecoveredRemaining(rows, clock, maxRetries, nextId);
      TableLater(rows, Recovered(rows, clock), log, nextId, maxRetries, intervals, clock, clock);
      rows := Recovered(rows, clock);
    }

    /** The selection. Its contract allows any answer the query allows. */
    method SelectEligible() returns (ids: seq<nat>)
      requires Valid()
      ensures Answer(rows, maxRetries, clock, ids)
      ensures |ids| <= 10
      ensures |ids| < 10 ==> forall id | id in rows && Eligible(rows[id], maxRetries, clock) :: id in ids
    {
      ids := [];
      for id := 0 to nextId
        invariant |ids| <= BATCH_LIMIT
        invariant forall i, j | 0 <= i < j < |ids| :: ids[i] != ids[j]
        invariant forall i | 0 <= i < |ids| ::
          ids[i] < id && ids[i] in rows && Eligible(rows[ids[i]], maxRetries, clock)
        invariant |ids| < BATCH_LIMIT ==>
          forall x | x in rows && Eligible(rows[x], maxRetries, clock) && x < id :: x in ids
      {
        if id in rows && Eligible(rows[id], maxRetries, clock) && |ids| < BATCH_LIMIT {
          ids := ids + [id];
        }
      }
    }

    /** `updateRetryState`, for the row `fe` read at time `selected`. */
    method UpdateRetryState(id: nat, fe: Row, a: Answers, ghost selected: int) returns (o: Outcome)
      requires Valid() && id in rows && rows[id] == fe && Eligible(fe, maxRetries, selected)
      requires fe.updatedAt <= selected <= clock
      modifies this`rows, this`clock, this`log
      ensures Valid() && clock >= old(clock) && o == OutcomeOf(a)
      ensures o.Refused? ==> log == old(log) && rows == old(rows)
      ensures !o.Refused? ==> log == old(log) + [Attempt(id, fe.retries + 1, old(clock))]
      ensures Potential() <= old(Potential())
      ensures forall x: nat | x != id :: SameRow(x, rows, old(rows))
      ensures !o.Refused? ==> Ended(id, rows, fe.retries + 1, o)
      ensures o.Delivered? ==> id !in rows
      ensures o.FailedAgain? ==>
        && id in rows
        && rows[id] == Row(Failed, fe.retries + 1, old(clock) + Wait(fe.retries + 1, intervals), clock)
      ensures o.Died? || o.Unsaved? ==>
        && id in rows
        && rows[id] == Row(Retrying, fe.retries + 1, old(clock) + Wait(fe.retries + 1, intervals), old(clock))
    {
      hide RowOk, Numbered, Spaced, TableOk, Remaining;
      ghost var before := rows;
      RowsBelow(rows, log, nextId, maxRetries, intervals, clock);
      var nextRetry := clock + Wait(fe.retries + 1, intervals);
      if !a.claimed {
        return Refused;
      }
      TableAttempt(rows, log, nextId, maxRetries, intervals, selected, clock, id);
      var claimed := Claim(id, nextRetry);
      assert claimed;       // with one runner the conditional update always finds its row
      log := log + [Attempt(id, fe.retries + 1, clock)];
      if !a.alive {
        AttemptUsesUp(before, rows, maxRetries, nextId, id, Died);
        return Died;
      }
      Tick();
      if !a.saved {
        AttemptUsesUp(before, rows, maxRetries, nextId, id, Unsaved);
        return Unsaved;
      }
      if a.delivered {
        TableLater(rows, rows - {id}, log, nextId, maxRetries, intervals, clock, clock);
        rows := rows - {id};
        o := Delivered;
      } else {
        TableLater(rows, rows[id := Row(Failed, fe.retries + 1, nextRetry, clock)], log, nextId, maxRetries, intervals,
          clock, clock);
        rows := rows[id := Row(Failed, fe.retries + 1, nextRetry, clock)];
        o := FailedAgain;
      }
      AttemptUsesUp(before, rows, maxRetries, nextId, id, o);
    }

    /**
     `ProcessDLQ`. However it ends, a row is attempted at most once and only if it was due, or its lease was
     stale; rows that are not attempted keep what they are, up to a stale lease. A run that nothing interrupts
     attempts every row that was due and whose claim goes through, unless ten others were selected.
     */
    method ProcessDLQ(recovered: bool, found: bool, answers: nat -> Answers) returns (run: Run)
      requires Valid()
      modifies this`rows, this`clock, this`log
      ensures Valid() && clock >= old(clock) && old(log) <= log && |log| <= |old(log)| + 10
      ensures Potential() <= old(Potential())
      ensures forall id: nat ::
        OneAttempt(id, OutcomeOf(answers(id)), old(rows), old(log), rows, log, maxRetries, clock)
      ensures recovered && found && (forall id: nat :: answers(id).alive) ==> run.Finished?
      ensures run.Finished? ==> recovered && found && |log| == |old(log)| + run.selected - run.refused
      ensures run.Finished? && run.selected < 10 ==>
        forall id: nat | id in old(rows) && Eligible(old(rows)[id], maxRetries, old(clock)) ::
          CountOf(log, id) == CountOf(old(log), id) + if answers(id).claimed then 1 else 0
    {
      hide RowOk, Numbered, Spaced, TableOk, Progress, Eligible, Claimable, Recovered, OneAttempt, CountOf, Answer,
        Ended, OutcomeOf, Wait, Handled, Remaining, Under, SameRow, Potential,
        NoneTwice;
      ghost var r0, log0, t0 := rows, log, clock;
      if !recovered {
        NoAttempts(answers, r0, log0, t0, rows, maxRetries, clock);
        return Interrupted;
      }
      RecoverStaleLeases();
      Tick();
      if !found {
        NoAttempts(answers, r0, log0, t0, rows, maxRetries, clock);
        return Interrupted;
      }
      ghost var table, selected := rows, clock;
      var ids := SelectEligible();
      AnswerMeans(table, maxRetries, selected, ids);
      TableClock(table, log, nextId, maxRetries, intervals, selected);
      UnderStart(ids, answers, table, log0);
      var snapshot := rows;
      var refused := 0;
      for k := 0 to |ids|
        invariant Valid() && clock >= selected && refused <= k && log0 <= log && |log| == |log0| + k - refused
        invariant Under(ids, k, answers, table, log0, rows, log)
        invariant Potential() <= old(Potential())
      {
        ghost var r1, log1 := rows, log;
        UnderMeans(ids, k, answers, table, log0, rows, log);
        var o := UpdateRetryState(ids[k], snapshot[ids[k]], answers(ids[k]), selected);
        UnderStep(ids, k, answers, table, log0, r1, log1, rows, log, o);
        if o.Died? {
          ProgressEnd(ids, k + 1, answers, r0, t0, table, selected, log0, rows, log, maxRetries, clock);
          return Interrupted;
        }
        if o.Refused? {
          refused := refused + 1;
        }
      }
      UnderMeans(ids, |ids|, answers, table, log0, rows, log);
      ProgressEnd(ids, |ids|, answers, r0, t0, table, selected, log0, rows, log, maxRetries, clock);
      if |ids| < BATCH_LIMIT {
        DueAttempted(ids, answers, r0, t0, table, selected, log0, log, maxRetries);
      }
      run := Finished(|ids|, refused);
    }

    /**
     Any run of the queue, with any answers and any crashes: the attempts it makes are at most the retries that
     remained before it, plus MaxRetries for every failure that came in; and all attempts ever made are at most
     MaxRetries per row ever inserted.
     */
    method Serve(events: seq<Event>)
      requires Valid()
      modifies this`rows, this`clock, this`log, this`nextId
      ensures Valid() && old(log) <= log
      ensures |log| - |old(log)| <= Remaining(old(rows), maxRetries, old(nextId)) + maxRetries * FailuresIn(events)
      ensures |log| <= nextId * maxRetries
    {
      hide RowOk, Numbered, Spaced, TableOk, Remaining, OneAttempt;
      for i := 0 to |events|
        invariant Valid() && old(log) <= log
        invariant Potential() <= old(Potential()) + maxRetries * FailuresIn(events[..i])
      {
        assert events[..i + 1][..i] == events[..i];
        MoreFailures(maxRetries, FailuresIn(events[..i]));
        match events[i] {
          case ListenerFailed(ok) => var st := HandleFailure(ok);
          case Turn(recovered, found, answers) => var run := ProcessDLQ(recovered, found, answers);
          case Pause => Tick();
        }
      }
      assert events[..|events|] == events;
      LogBounded(rows, log, nextId, maxRetries, intervals, clock);
    }
  }
}
