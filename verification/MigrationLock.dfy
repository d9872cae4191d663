/**
 The cluster migration lock (framework/database/migration_lock.go): one row, changed by conditional updates.

 `MigrationLock` holds the row and the updates as the code issues them. `MigrationLockProtocol` runs any
 number of processes over the row, one statement or one clock reading per step, with an integer clock
 (nanoseconds) and bounds on how long each piece of the code may take.
 */
module MigrationLock {
  import opened Wrappers

  /** `lockedBy` 0 is the empty string; lock ids are positive. */
  datatype LockRow = LockRow(locked: bool, lockedAt: int, lockedBy: nat)

  const MILLISECOND := 1_000_000
  const SECOND := 1_000_000_000
  const DEFAULT_TIMEOUT := 300 * SECOND

  function LockTimeout(configured: int): int {
    if configured > 0 then configured else DEFAULT_TIMEOUT
  }

  /** The ticker interval that `startHeartbeat` computes. */
  function HeartbeatInterval(timeout: int): int {
    var third := timeout / 3;
    var capped := if third > 30 * SECOND then 30 * SECOND else third;
    if capped < 100 * MILLISECOND then 100 * MILLISECOND else capped
  }

  /**
   Three heartbeats fit in a timeout exactly when the timeout is at least 300 ms. The interval is a third of it, but
   never under 100 ms nor over 30 s.
   */
  lemma IntervalIsAThird(timeout: int)
    requires timeout > 0
    ensures 3 * HeartbeatInterval(timeout) <= timeout <==> timeout >= 300_000_000
    ensures 100_000_000 <= HeartbeatInterval(timeout) <= 30_000_000_000
    ensures 300_000_000 <= timeout <= 90_000_000_000 ==> HeartbeatInterval(timeout) == timeout / 3
  {
  }

  // The row after each statement, and whether the statement affected it.

  function EnsureRow(row: Option<LockRow>, now: int): Option<LockRow> {
    if row.None? then Some(LockRow(false, now, 0)) else row
  }

  predicate Unlocked(row: Option<LockRow>) {
    row.Some? && !row.value.locked
  }

  predicate Stale(seen: Option<LockRow>, now: int, timeout: int) {
    seen.Some? && seen.value.locked && now - seen.value.lockedAt > timeout
  }

  predicate StillAt(row: Option<LockRow>, seenAt: int) {
    row.Some? && row.value.locked && row.value.lockedAt == seenAt
  }

  function Take(now: int, id: nat): Option<LockRow> {
    Some(LockRow(true, now, id))
  }

  function Beat(row: Option<LockRow>, id: nat, now: int): Option<LockRow> {
    if row.Some? && row.value.lockedBy == id then Some(row.value.(lockedAt := now)) else row
  }

  function Free(row: Option<LockRow>, id: nat): Option<LockRow> {
    if row.Some? && row.value.lockedBy == id then Some(row.value.(locked := false, lockedBy := 0)) else row
  }

  /** What the database answers to the statements of one attempt. */
  datatype Answers = Answers(migrated: bool, created: bool, updated: bool, looked: bool, broken: bool)

  class LockTable {
    var row: Option<LockRow>

    constructor ()
      ensures row == None
    {
      row := None;
    }

    /** UPDATE ... WHERE locked = false */
    method UpdateIfUnlocked(now: int, id: nat) returns (affected: bool)
      modifies this
      ensures affected <==> old(row).Some? && !old(row).value.locked
      ensures row == if affected then Some(LockRow(true, now, id)) else old(row)
    {
      affected := row.Some? && !row.value.locked;
      if affected {
        row := Some(LockRow(true, now, id));
      }
    }

    /** UPDATE ... WHERE locked = true AND locked_at = the value read */
    method UpdateIfStillAt(seenAt: int, now: int, id: nat) returns (affected: bool)
      modifies this
      ensures affected <==> old(row).Some? && old(row).value.locked && old(row).value.lockedAt == seenAt
      ensures row == if affected then Some(LockRow(true, now, id)) else old(row)
    {
      affected := row.Some? && row.value.locked && row.value.lockedAt == seenAt;
      if affected {
        row := Some(LockRow(true, now, id));
      }
    }

    /** The heartbeat, which does not look at `answer`: a refused one leaves the row as it was, and nobody learns it. */
    method UpdateLockHeartbeat(now: int, id: nat, answer: bool)
      modifies this
      ensures answer && old(row).Some? && old(row).value.lockedBy == id ==>
        row == Some(LockRow(old(row).value.locked, now, id))
      ensures !answer || old(row).None? || old(row).value.lockedBy != id ==> row == old(row)
    {
      if answer && row.Some? && row.value.lockedBy == id {
        row := Some(LockRow(row.value.locked, now, row.value.lockedBy));
      }
    }

    /** The release of its holder unlocks the row and leaves `locked_at` alone; any other changes nothing. */
    method ReleaseLock(id: nat, answer: bool) returns (st: Status)
      modifies this
      ensures answer && old(row).Some? && old(row).value.lockedBy == id ==>
        row == Some(LockRow(false, old(row).value.lockedAt, 0))
      ensures !answer || old(row).None? || old(row).value.lockedBy != id ==> row == old(row)
      ensures st.Success? <==> answer
    {
      if !answer {
        return Failure;
      }
      if row.Some? && row.value.lockedBy == id {
        row := Some(LockRow(false, row.value.lockedAt, 0));
      }
      st := Success;
    }

    /**
     `acquireLock` when no other process gets in between. It succeeds on a missing, a free or a stale lock only, as far
     as its statements go through; stale means older than the configured timeout, or five minutes. A row that cannot
     be created is not an error at once; a row that was created stays.
     */
    method AcquireLock(now: int, configured: int, id: nat, a: Answers) returns (st: Status, acquired: bool)
      modifies this
      ensures
        var timeout := if configured > 0 then configured else 300_000_000_000;
        var stale := old(row).Some? && now - old(row).value.lockedAt > timeout;
        && (acquired <==>
             && a.migrated && a.updated
             && (if old(row).None? then a.created else !old(row).value.locked || (stale && a.looked && a.broken)))
        && (st.Failure? <==>
             || !a.migrated || !a.updated || (old(row).None? && !a.created)
             || (old(row).Some? && old(row).value.locked && (!a.looked || (stale && !a.broken))))
      ensures acquired ==> row == Some(LockRow(true, now, id))
      ensures !acquired ==>
        row == if old(row).None? && a.migrated && a.created then Some(LockRow(false, now, 0)) else old(row)
    {
      acquired := false;
      if !a.migrated {
        return Failure, false;
      }
      if row == None && a.created {
        row := Some(LockRow(false, now, 0));
      }
      if !a.updated {
        return Failure, false;
      }
      acquired := UpdateIfUnlocked(now, id);
      if !acquired {
        var seen := row;
        if !a.looked || seen == None {
          return Failure, false;
        }
        if seen.value.locked && now - seen.value.lockedAt > LockTimeout(configured) {
          if !a.broken {
            return Failure, false;
          }
          acquired := UpdateIfStillAt(seen.value.lockedAt, now, id);
        }
      }
      st := Success;
    }

    /** A lock that its holder has released can be had at once, at any time and with any timeout. */
    method HandOver(holder: nat, now: int, configured: int, next: nat, a: Answers)
      returns (st: Status, acquired: bool)
      requires row.Some? && row.value.lockedBy == holder && a.migrated && a.updated
      modifies this
      ensures st.Success? && acquired && row == Some(LockRow(true, now, next))
    {
      st := ReleaseLock(holder, true);
      st, acquired := AcquireLock(now, configured, next, a);
    }
  }
}

module MigrationLockProtocol {
  import opened MigrationLock
  import opened Wrappers

  /**
   The lock timeout, and how long a process may take
   - from reading the clock in `acquireLock` to the last statement of the attempt (`attempt`),
   - from the successful update to the creation of the heartbeat ticker (`start`),
   - from a tick to the end of the heartbeat update (`beat`),
   - from the end of the heartbeat goroutine to the release update (`release`),
   and how many heartbeats in a row the database may refuse (`lost`).
   */
  datatype Timing = Timing(timeout: nat, attempt: nat, start: nat, beat: nat, lost: nat, release: nat) {
    function Interval(): int {
      HeartbeatInterval(timeout)
    }

    /** How much later the next tick can come after `missed` refused heartbeats. */
    function Late(missed: nat): int {
      missed * (Interval() + beat)
    }

    /** The longest time a live holder can leave `locked_at` as it is. */
    function Silence(): int {
      attempt + start + Late(lost + 1) + release
    }
  }

  lemma {:induction false} LateGrows(tm: Timing, missed: nat, lost: nat)
    requires missed <= lost
    ensures tm.Late(lost) >= tm.Late(missed)
    ensures tm.Late(missed + 1) == tm.Late(missed) + tm.Interval() + tm.beat
    decreases lost
  {
    if missed < lost {
      LateGrows(tm, missed, lost - 1);
      assert tm.Late(lost) == tm.Late(lost - 1) + tm.Interval() + tm.beat;
    }
  }

  datatype Phase =
    | Idle
    | Ensured                                       // looked for the row; the clock is not read yet
    | Attempt(now: int)                             // read the clock
    | Failed(now: int)                              // found the lock taken
    | Looked(now: int, seen: Option<LockRow>)       // read the row
    | Acquired(since: int)                          // no ticker yet
    | Holding(next: int, missed: nat)               // waiting for the tick at `next`, the last `missed` ones in vain
    | Beating(tick: int, value: int, next: int, missed: nat)      // read the clock for the heartbeat
    | Stopping(since: int)                          // heartbeat goroutine joined
    | Dead

  datatype State = State(clock: int, row: Option<LockRow>, procs: map<nat, Phase>)

  function Init(): State {
    State(0, None, map[])
  }

  function PhaseOf(s: State, p: nat): Phase {
    if p in s.procs then s.procs[p] else Idle
  }

  /** Between a successful acquire and the release. */
  predicate Inside(ph: Phase) {
    ph.Acquired? || ph.Holding? || ph.Beating? || ph.Stopping?
  }

  datatype Action =
    | Advance(to: int)
    | Ensure(p: nat, created: bool)                 // whether a missing row could be created
    | ReadClock(p: nat)
    | TryUnlocked(p: nat)
    | Look(p: nat)
    | Break(p: nat)
    | GiveUp(p: nat)
    | StartTicker(p: nat)
    | BeatRead(p: nat, next: int)
    | BeatWrite(p: nat)
    | BeatRefused(p: nat)
    | Stop(p: nat)
    | Release(p: nat)
    | ReleaseRefused(p: nat)
    | Crash(p: nat)

  /** A process in phase `ph` still keeps its time bounds at time `now`. */
  predicate InTime(tm: Timing, ph: Phase, now: int) {
    match ph
    case Idle => true
    case Ensured => true
    case Attempt(read) => now <= read + tm.attempt
    case Failed(read) => now <= read + tm.attempt
    case Looked(read, _) => now <= read + tm.attempt
    case Acquired(since) => now <= since + tm.start
    case Holding(next, _) => now <= next + tm.beat
    case Beating(tick, _, _, _) => now <= tick + tm.beat
    case Stopping(since) => now <= since + tm.release
    case Dead => true
  }

  predicate Enabled(tm: Timing, s: State, a: Action) {
    match a
    case Advance(to) => s.clock <= to && forall p | p in s.procs :: InTime(tm, s.procs[p], to)
    case Ensure(p, _) => p > 0 && PhaseOf(s, p).Idle?
    case ReadClock(p) => PhaseOf(s, p).Ensured?
    case TryUnlocked(p) => PhaseOf(s, p).Attempt?
    case Look(p) => PhaseOf(s, p).Failed?
    case Break(p) => PhaseOf(s, p).Looked?
    case GiveUp(p) => var ph := PhaseOf(s, p); ph.Ensured? || ph.Attempt? || ph.Failed? || ph.Looked?
    case StartTicker(p) => PhaseOf(s, p).Acquired?
    // after a tick is taken up, the next one is at least an interval after it, and at most one from now
    case BeatRead(p, next) =>
      var ph := PhaseOf(s, p);
      ph.Holding? && ph.next <= s.clock && ph.next + tm.Interval() <= next <= s.clock + tm.Interval()
    case BeatWrite(p) => PhaseOf(s, p).Beating?
    case BeatRefused(p) => var ph := PhaseOf(s, p); ph.Beating? && ph.missed < tm.lost
    case Stop(p) => PhaseOf(s, p).Acquired? || PhaseOf(s, p).Holding?
    case Release(p) => PhaseOf(s, p).Stopping?
    case ReleaseRefused(p) => PhaseOf(s, p).Stopping?
    case Crash(p) => p > 0
  }

  function To(s: State, p: nat, ph: Phase): State {
    s.(procs := s.procs[p := ph])
  }

  function Next(tm: Timing, s: State, a: Action): State
    requires Enabled(tm, s, a)
  {
    match a
    case Advance(to) => s.(clock := to)
    case Ensure(p, created) => To(s, p, Ensured).(row := if created then EnsureRow(s.row, s.clock) else s.row)
    case ReadClock(p) => To(s, p, Attempt(s.clock))
    case TryUnlocked(p) =>
      var now := PhaseOf(s, p).now;
      if Unlocked(s.row) then To(s, p, Acquired(s.clock)).(row := Take(now, p)) else To(s, p, Failed(now))
    case Look(p) => To(s, p, Looked(PhaseOf(s, p).now, s.row))
    case Break(p) =>
      var ph := PhaseOf(s, p);
      if Stale(ph.seen, ph.now, tm.timeout) && StillAt(s.row, ph.seen.value.lockedAt) then
        To(s, p, Acquired(s.clock)).(row := Take(ph.now, p))
      else To(s, p, Idle)
    case GiveUp(p) => To(s, p, Idle)
    case StartTicker(p) => To(s, p, Holding(s.clock + tm.Interval(), 0))
    case BeatRead(p, next) =>
      var ph := PhaseOf(s, p);
      To(s, p, Beating(ph.next, s.clock, next, ph.missed))
    case BeatWrite(p) =>
      var ph := PhaseOf(s, p);
      To(s, p, Holding(ph.next, 0)).(row := Beat(s.row, p, ph.value))
    case BeatRefused(p) =>
      var ph := PhaseOf(s, p);
      To(s, p, Holding(ph.next, ph.missed + 1))
    case Stop(p) => To(s, p, Stopping(s.clock))
    case Release(p) => To(s, p, Idle).(row := Free(s.row, p))
    case ReleaseRefused(p) => To(s, p, Idle)
    case Crash(p) => To(s, p, Dead)
  }

  predicate CanStep(tm: Timing, s: State, s': State, a: Action) {
    Enabled(tm, s, a) && s' == Next(tm, s, a)
  }

  ghost predicate Steps(tm: Timing, s: State, s': State) {
    exists a :: CanStep(tm, s, s', a)
  }

  ghost predicate IsRun(tm: Timing, run: seq<State>) {
    && |run| > 0 && run[0] == Init()
    && forall i | 0 < i < |run| :: Steps(tm, run[i - 1], run[i])
  }

  ghost predicate Reachable(tm: Timing, s: State) {
    exists run :: IsRun(tm, run) && run[|run| - 1] == s
  }

  lemma ReachableStep(tm: Timing, s: State, a: Action)
    requires Reachable(tm, s) && Enabled(tm, s, a)
    ensures Reachable(tm, Next(tm, s, a))
  {
    var s' := Next(tm, s, a);
    assert CanStep(tm, s, s', a);
    Extend(tm, s, s');
  }

  lemma Extend(tm: Timing, s: State, s': State)
    requires Reachable(tm, s) && Steps(tm, s, s')
    ensures Reachable(tm, s')
  {
    var run :| IsRun(tm, run) && run[|run| - 1] == s;
    var longer := run + [s'];
    assert IsRun(tm, longer) && longer[|longer| - 1] == s';
  }

  lemma ReachableInit(tm: Timing)
    ensures Reachable(tm, Init())
  {
    assert IsRun(tm, [Init()]);
  }

  /** What an attempt of `p` does that nobody gets in between. */
  function Attempted(tm: Timing, s: State, p: nat, created: bool): State
    requires p > 0 && PhaseOf(s, p).Idle?
  {
    var ensured := Next(tm, s, Ensure(p, created));
    var tried := Next(tm, Next(tm, ensured, ReadClock(p)), TryUnlocked(p));
    if PhaseOf(tried, p).Acquired? then tried else Next(tm, Next(tm, tried, Look(p)), Break(p))
  }

  /** The steps of an undisturbed attempt end as `acquireLock` does when the updates go through. */
  lemma UndisturbedAttempt(tm: Timing, s: State, p: nat, created: bool)
    requires p > 0 && PhaseOf(s, p).Idle?
    ensures var t := Attempted(tm, s, p, created);
      var acquires :=
        if s.row.None? then created else !s.row.value.locked || s.clock - s.row.value.lockedAt > tm.timeout;
      && PhaseOf(t, p) == (if acquires then Acquired(s.clock) else Idle)
      && t.row == (if acquires then Some(LockRow(true, s.clock, p)) else s.row) && t.clock == s.clock
  {
  }

  // ---------------------------------------------------------------------------------------------
  // The invariant: a live holder owns the row, and the row is fresh.

  /** The latest time of the tick that follows `missed` refused heartbeats. */
  function LastTick(tm: Timing, at: int, missed: nat): int {
    at + tm.attempt + tm.start + tm.Interval() + tm.Late(missed)
  }

  predicate Fresh(tm: Timing, at: int, clock: int, ph: Phase) {
    && at <= clock
    && match ph
       case Acquired(since) => since <= at + tm.attempt
       case Holding(next, missed) => missed <= tm.lost && next <= LastTick(tm, at, missed)
       case Beating(tick, value, next, missed) =>
         && missed <= tm.lost && tick <= LastTick(tm, at, missed)
         && tick <= value <= clock && value <= tick + tm.beat && tick <= next <= value + tm.Interval()
       case Stopping(since) => since <= at + tm.attempt + tm.start + tm.Late(tm.lost + 1)
       case _ => true
  }

  predicate Owns(row: Option<LockRow>, p: nat) {
    row.Some? && row.value.locked && row.value.lockedBy == p
  }

  ghost predicate PhaseInv(tm: Timing, s: State, p: nat, ph: Phase) {
    && p > 0
    && InTime(tm, ph, s.clock)
    && (Inside(ph) ==> Owns(s.row, p) && Fresh(tm, s.row.value.lockedAt, s.clock, ph))
    && (ph.Attempt? || ph.Failed? || ph.Looked? ==> ph.now <= s.clock)
  }

  ghost predicate Inv(tm: Timing, s: State) {
    forall p | p in s.procs :: PhaseInv(tm, s, p, s.procs[p])
  }

  /** A holder in time has not left the row alone for longer than the silence. */
  lemma FreshFor(tm: Timing, at: int, clock: int, ph: Phase)
    requires Inside(ph) && Fresh(tm, at, clock, ph) && InTime(tm, ph, clock)
    ensures clock - at <= tm.Silence()
  {
    hide Timing.Late;
    LateGrows(tm, 0, tm.lost + 1);
    LateZero(tm);
    if ph.Holding? || ph.Beating? {
      LateGrows(tm, ph.missed, tm.lost);
      LateGrows(tm, tm.lost, tm.lost);
    }
  }

  lemma LateZero(tm: Timing)
    ensures tm.Late(0) == 0
  {
  }

  /** A live holder's row is never stale for anybody who reads the clock in time. */
  lemma FreshWhileHeld(tm: Timing, s: State, p: nat, now: int)
    requires tm.Silence() <= tm.timeout && Inv(tm, s) && Inside(PhaseOf(s, p)) && now <= s.clock
    ensures s.row.Some? && now - s.row.value.lockedAt <= tm.timeout
  {
    hide Fresh, InTime, Timing.Silence;
    assert PhaseInv(tm, s, p, s.procs[p]);
    FreshFor(tm, s.row.value.lockedAt, s.clock, s.procs[p]);
  }

  /** What a step does to the row: it takes an unlocked or stale one, or its process owns it. */
  lemma RowStep(tm: Timing, s: State, a: Action, p: nat)
    requires tm.Silence() <= tm.timeout && Inv(tm, s) && Enabled(tm, s, a) && !a.Advance?
    requires p in s.procs && p != a.p && Inside(s.procs[p])
    ensures Next(tm, s, a).row == s.row
  {
    hide Fresh, InTime, Timing.Silence;
    assert PhaseInv(tm, s, p, s.procs[p]);
    if a.p in s.procs {
      assert PhaseInv(tm, s, a.p, s.procs[a.p]);
    }
    if a.Break? {
      FreshWhileHeld(tm, s, p, PhaseOf(s, a.p).now);
    }
  }

  /** A step changes the phase of one process and keeps the clock and, while another holds the lock, the row. */
  lemma OthersKeepPhase(tm: Timing, s: State, a: Action, p: nat)
    requires tm.Silence() <= tm.timeout && Inv(tm, s) && Enabled(tm, s, a)
    requires p in s.procs && (a.Advance? || p != a.p)
    ensures PhaseInv(tm, Next(tm, s, a), p, s.procs[p])
  {
    assert PhaseInv(tm, s, p, s.procs[p]);
    if a.Advance? {
      hide Timing.Late, LastTick;
    } else {
      hide *;
      SameClock(tm, s, a);
      if Inside(s.procs[p]) {
        RowStep(tm, s, a, p);
        SamePhaseInv(tm, s, Next(tm, s, a), p);
      } else {
        OutsideInv(tm, s, Next(tm, s, a), p);
      }
    }
  }

  lemma SameClock(tm: Timing, s: State, a: Action)
    requires Enabled(tm, s, a) && !a.Advance?
    ensures Next(tm, s, a).clock == s.clock
  {
  }

  lemma SamePhaseInv(tm: Timing, s: State, t: State, p: nat)
    requires p in s.procs && PhaseInv(tm, s, p, s.procs[p]) && t.clock == s.clock && t.row == s.row
    ensures PhaseInv(tm, t, p, s.procs[p])
  {
  }

  lemma OutsideInv(tm: Timing, s: State, t: State, p: nat)
    requires p in s.procs && PhaseInv(tm, s, p, s.procs[p]) && t.clock == s.clock && !Inside(s.procs[p])
    ensures PhaseInv(tm, t, p, s.procs[p])
  {
  }

  lemma AttemptKept(tm: Timing, s: State, a: Action)
    requires Enabled(tm, s, a) && !a.Advance? && (a.p in s.procs ==> PhaseInv(tm, s, a.p, s.procs[a.p]))
    requires !a.StartTicker? && !a.BeatRead? && !a.BeatWrite? && !a.BeatRefused? && !a.Stop?
    ensures PhaseInv(tm, Next(tm, s, a), a.p, PhaseOf(Next(tm, s, a), a.p))
  {
    hide Timing.Late, LastTick;
  }

  lemma StartKept(tm: Timing, s: State, p: nat)
    requires Enabled(tm, s, StartTicker(p)) && PhaseInv(tm, s, p, PhaseOf(s, p))
    ensures PhaseInv(tm, Next(tm, s, StartTicker(p)), p, PhaseOf(Next(tm, s, StartTicker(p)), p))
  {
  }

  lemma ReadKept(tm: Timing, s: State, p: nat, next: int)
    requires Enabled(tm, s, BeatRead(p, next)) && PhaseInv(tm, s, p, PhaseOf(s, p))
    ensures PhaseInv(tm, Next(tm, s, BeatRead(p, next)), p, PhaseOf(Next(tm, s, BeatRead(p, next)), p))
  {
    hide Timing.Late, LastTick;
  }

  lemma WriteKept(tm: Timing, s: State, p: nat)
    requires Enabled(tm, s, BeatWrite(p)) && PhaseInv(tm, s, p, PhaseOf(s, p))
    ensures PhaseInv(tm, Next(tm, s, BeatWrite(p)), p, PhaseOf(Next(tm, s, BeatWrite(p)), p))
  {
    hide Timing.Late;
    LateZero(tm);
  }

  lemma RefusedKept(tm: Timing, s: State, p: nat)
    requires Enabled(tm, s, BeatRefused(p)) && PhaseInv(tm, s, p, PhaseOf(s, p))
    ensures PhaseInv(tm, Next(tm, s, BeatRefused(p)), p, PhaseOf(Next(tm, s, BeatRefused(p)), p))
  {
    hide Timing.Late;
    LateGrows(tm, PhaseOf(s, p).missed, tm.lost);
  }

  lemma StopKept(tm: Timing, s: State, p: nat)
    requires Enabled(tm, s, Stop(p)) && PhaseInv(tm, s, p, PhaseOf(s, p))
    ensures PhaseInv(tm, Next(tm, s, Stop(p)), p, PhaseOf(Next(tm, s, Stop(p)), p))
  {
    hide Timing.Late;
    LateZero(tm);
    LateGrows(tm, 0, tm.lost + 1);
    if PhaseOf(s, p).Holding? {
      LateGrows(tm, PhaseOf(s, p).missed, tm.lost);
      LateGrows(tm, tm.lost, tm.lost);
    }
  }

  lemma OwnPhaseKept(tm: Timing, s: State, a: Action)
    requires Inv(tm, s) && Enabled(tm, s, a) && !a.Advance?
    ensures PhaseInv(tm, Next(tm, s, a), a.p, PhaseOf(Next(tm, s, a), a.p))
  {
    hide PhaseInv, Next;
    assert a.p in s.procs ==> PhaseInv(tm, s, a.p, s.procs[a.p]);
    match a
    case StartTicker(p) => StartKept(tm, s, p);
    case BeatRead(p, next) => ReadKept(tm, s, p, next);
    case BeatWrite(p) => WriteKept(tm, s, p);
    case BeatRefused(p) => RefusedKept(tm, s, p);
    case Stop(p) => StopKept(tm, s, p);
    case _ => AttemptKept(tm, s, a);
  }

  lemma StepKeepsInv(tm: Timing, s: State, a: Action)
    requires tm.Silence() <= tm.timeout && Inv(tm, s) && Enabled(tm, s, a)
    ensures Inv(tm, Next(tm, s, a))
  {
    hide PhaseInv, Enabled, Timing.Silence;
    var s' := Next(tm, s, a);
    forall p | p in s'.procs ensures PhaseInv(tm, s', p, s'.procs[p]) {
      if !a.Advance? && p == a.p {
        OwnPhaseKept(tm, s, a);
      } else {
        OthersKeepPhase(tm, s, a, p);
      }
    }
  }

  lemma {:induction false} RunKeepsInv(tm: Timing, run: seq<State>, n: nat)
    requires tm.Silence() <= tm.timeout && IsRun(tm, run) && n < |run|
    ensures Inv(tm, run[n])
  {
    if n > 0 {
      RunKeepsInv(tm, run, n - 1);
      assert Steps(tm, run[n - 1], run[n]);
      var a :| CanStep(tm, run[n - 1], run[n], a);
      StepKeepsInv(tm, run[n - 1], a);
    }
  }

  ghost predicate Exclusive(s: State) {
    forall p, q :: Inside(PhaseOf(s, p)) && Inside(PhaseOf(s, q)) ==> p == q
  }

  lemma SilenceFitsMeansExclusive(tm: Timing, s: State)
    requires tm.Silence() <= tm.timeout && Reachable(tm, s)
    ensures Exclusive(s)
  {
    var run :| IsRun(tm, run) && run[|run| - 1] == s;
    RunKeepsInv(tm, run, |run| - 1);
    forall p, q | Inside(PhaseOf(s, p)) && Inside(PhaseOf(s, q)) ensures p == q {
      assert PhaseInv(tm, s, p, s.procs[p]) && PhaseInv(tm, s, q, s.procs[q]);
    }
  }

  /** A release that goes through hands the lock to whoever attempts it next, if nobody has broken it meanwhile. */
  lemma ReleaseHandsOver(tm: Timing, s: State, p: nat, q: nat, created: bool)
    requires PhaseOf(s, p).Stopping? && q > 0 && (q == p || PhaseOf(s, q).Idle?)
    requires s.row.Some? && s.row.value.lockedBy == p
    ensures
      var free := Next(tm, s, Release(p));
      && PhaseOf(free, q).Idle?
      && PhaseOf(Attempted(tm, free, q, created), q) == Acquired(s.clock)
      && Attempted(tm, free, q, created).row == Some(LockRow(true, s.clock, q))
  {
    hide Attempted;
    UndisturbedAttempt(tm, Next(tm, s, Release(p)), q, created);
  }

  /** In time, nobody has: whenever a process is about to release, the next attempt gets the lock. */
  lemma ReleaseFreesTheLock(tm: Timing, s: State, p: nat, q: nat, created: bool)
    requires tm.Silence() <= tm.timeout && Reachable(tm, s)
    requires PhaseOf(s, p).Stopping? && q > 0 && (q == p || PhaseOf(s, q).Idle?)
    ensures
      var free := Next(tm, s, Release(p));
      PhaseOf(free, q).Idle? && PhaseOf(Attempted(tm, free, q, created), q).Acquired?
  {
    hide Attempted, Fresh, InTime;
    var run :| IsRun(tm, run) && run[|run| - 1] == s;
    RunKeepsInv(tm, run, |run| - 1);
    assert PhaseInv(tm, s, p, s.procs[p]);
    ReleaseHandsOver(tm, s, p, q, created);
  }

  /**
   The lock excludes, whatever the interleaving of attempts, stale-lock breaking, heartbeats, releases and crashes:
   with a timeout of at least 300 ms, no two live processes are ever both between a successful acquire and their
   release, if no heartbeat is refused and the other delays add up to at most two thirds of the timeout, or if no
   two heartbeats in a row are refused and they add up to at most one third.
   */
  lemma MutualExclusion(tm: Timing, s: State)
    requires tm.timeout >= 300 * MILLISECOND
    requires
      || (tm.lost == 0 && 3 * (tm.attempt + tm.start + tm.beat + tm.release) <= 2 * tm.timeout)
      || (tm.lost == 1 && 3 * (tm.attempt + tm.start + 2 * tm.beat + tm.release) <= tm.timeout)
    requires Reachable(tm, s)
    ensures Exclusive(s)
  {
    hide Reachable, Exclusive;
    IntervalIsAThird(tm.timeout);
    assert tm.Late(1) == tm.Interval() + tm.beat && tm.Late(2) == 2 * (tm.Interval() + tm.beat);
    SilenceFitsMeansExclusive(tm, s);
  }

  // ---------------------------------------------------------------------------------------------
  // The bound is exact.

  /** Process 1 alone in the system, in phase `ph`, with the row as given. */
  function Alone(clock: int, row: LockRow, ph: Phase): State {
    State(clock, Some(row), map[1 := ph])
  }

  lemma AloneStep(tm: Timing, clock: int, row: LockRow, ph: Phase, a: Action, clock': int, row': LockRow, ph': Phase)
    requires Reachable(tm, Alone(clock, row, ph)) && Enabled(tm, Alone(clock, row, ph), a)
    requires a.Advance? || a.p == 1
    requires Next(tm, Alone(clock, row, ph), a) == Alone(clock', row', ph')
    ensures Reachable(tm, Alone(clock', row', ph'))
  {
    ReachableStep(tm, Alone(clock, row, ph), a);
  }

  /** Process 1 takes the lock as slowly as the bounds allow. */
  lemma SlowAcquire(tm: Timing)
    ensures Reachable(tm, Alone(tm.attempt, LockRow(true, 0, 1), Acquired(tm.attempt)))
  {
    hide Reachable;
    var free, taken := LockRow(false, 0, 0), LockRow(true, 0, 1);
    ReachableInit(tm);
    ReachableStep(tm, Init(), Ensure(1, true));
    assert Next(tm, Init(), Ensure(1, true)) == Alone(0, free, Ensured);
    AloneStep(tm, 0, free, Ensured, ReadClock(1), 0, free, Attempt(0));
    AloneStep(tm, 0, free, Attempt(0), Advance(tm.attempt), tm.attempt, free, Attempt(0));
    AloneStep(tm, tm.attempt, free, Attempt(0), TryUnlocked(1), tm.attempt, taken, Acquired(tm.attempt));
  }

  /** Its first `missed` heartbeats are late and refused, and it waits for the next, which is as late. */
  lemma {:induction false} LateTicks(tm: Timing, missed: nat)
    requires missed <= tm.lost
    ensures var tick := LastTick(tm, 0, missed);
      Reachable(tm, Alone(tick + tm.beat, LockRow(true, 0, 1), Holding(tick, missed)))
    decreases missed
  {
    hide Reachable, Timing.Late;
    var row, tick := LockRow(true, 0, 1), LastTick(tm, 0, missed);
    if missed == 0 {
      var started := tm.attempt + tm.start;
      LateZero(tm);
      SlowAcquire(tm);
      AloneStep(tm, tm.attempt, row, Acquired(tm.attempt), Advance(started), started, row, Acquired(tm.attempt));
      AloneStep(tm, started, row, Acquired(tm.attempt), StartTicker(1), started, row, Holding(tick, 0));
      AloneStep(tm, started, row, Holding(tick, 0), Advance(tick + tm.beat), tick + tm.beat, row, Holding(tick, 0));
    } else {
      LateTicks(tm, missed - 1);
      LateGrows(tm, missed - 1, missed);
      var last := LastTick(tm, 0, missed - 1);
      LateTick(tm, last, missed - 1);
    }
  }

  /** One late heartbeat that is refused. */
  lemma LateTick(tm: Timing, last: int, missed: nat)
    requires missed < tm.lost
    requires Reachable(tm, Alone(last + tm.beat, LockRow(true, 0, 1), Holding(last, missed)))
    ensures var tick := last + tm.beat + tm.Interval();
      Reachable(tm, Alone(tick + tm.beat, LockRow(true, 0, 1), Holding(tick, missed + 1)))
  {
    hide Reachable;
    var row, read, tick := LockRow(true, 0, 1), last + tm.beat, last + tm.beat + tm.Interval();
    var beating := Beating(last, read, tick, missed);
    AloneStep(tm, read, row, Holding(last, missed), BeatRead(1, tick), read, row, beating);
    AloneStep(tm, read, row, beating, BeatRefused(1), read, row, Holding(tick, missed + 1));
    AloneStep(tm, read, row, Holding(tick, missed + 1), Advance(tick + tm.beat),
              tick + tm.beat, row, Holding(tick, missed + 1));
  }

  /** Process 1 gets no heartbeat through for as long as the bounds allow and is about to release the lock. */
  lemma SlowHolder(tm: Timing)
    ensures Reachable(tm, Alone(tm.Silence(), LockRow(true, 0, 1), Stopping(tm.Silence() - tm.release)))
  {
    hide Reachable, Timing.Late;
    var row, tick := LockRow(true, 0, 1), LastTick(tm, 0, tm.lost);
    LateTicks(tm, tm.lost);
    LateGrows(tm, tm.lost, tm.lost);
    AloneStep(tm, tick + tm.beat, row, Holding(tick, tm.lost), Stop(1), tick + tm.beat, row, Stopping(tick + tm.beat));
    AloneStep(tm, tick + tm.beat, row, Stopping(tick + tm.beat), Advance(tm.Silence()),
              tm.Silence(), row, Stopping(tick + tm.beat));
  }

  /** Process 2 then breaks the lock as stale, while process 1 has not released it. */
  lemma TwoHolders(tm: Timing) returns (s: State)
    requires tm.Silence() > tm.timeout
    ensures Reachable(tm, s) && Inside(PhaseOf(s, 1)) && Inside(PhaseOf(s, 2))
  {
    hide Reachable, Timing.Late;
    SlowHolder(tm);
    var t0 := Alone(tm.Silence(), LockRow(true, 0, 1), Stopping(tm.Silence() - tm.release));
    ReachableStep(tm, t0, Ensure(2, true));
    var t1 := Next(tm, t0, Ensure(2, true));
    ReachableStep(tm, t1, ReadClock(2));
    var t2 := Next(tm, t1, ReadClock(2));
    ReachableStep(tm, t2, TryUnlocked(2));
    var t3 := Next(tm, t2, TryUnlocked(2));
    ReachableStep(tm, t3, Look(2));
    var t4 := Next(tm, t3, Look(2));
    ReachableStep(tm, t4, Break(2));
    s := Next(tm, t4, Break(2));
  }

  /**
   Mutual exclusion holds in every reachable state if and only if the delays fit the timeout together with one
   interval and one late heartbeat for every heartbeat that may be refused in a row, and one more.
   */
  lemma ExclusiveIffSilenceFits(tm: Timing)
    ensures (forall s | Reachable(tm, s) :: Exclusive(s)) <==> tm.Silence() <= tm.timeout
  {
    hide Reachable;
    if tm.Silence() <= tm.timeout {
      forall s | Reachable(tm, s) ensures Exclusive(s) {
        SilenceFitsMeansExclusive(tm, s);
      }
    } else {
      var s := TwoHolders(tm);
      assert !Exclusive(s);
    }
  }

  /** A timeout of 300 ms, no delays at all, and up to `lost` refused heartbeats in a row. */
  function NoDelays(lost: nat): Timing {
    Timing(300 * MILLISECOND, 0, 0, 0, lost, 0)
  }

  /** Even without any delay, three refused heartbeats in a row let two processes hold the lock; two do not. */
  lemma RefusedHeartbeats() returns (s: State)
    ensures Reachable(NoDelays(3), s) && Inside(PhaseOf(s, 1)) && Inside(PhaseOf(s, 2))
    ensures forall t | Reachable(NoDelays(2), t) :: Exclusive(t)
  {
    hide Reachable;
    ExclusiveIffSilenceFits(NoDelays(2));
    s := TwoHolders(NoDelays(3));
  }
}
