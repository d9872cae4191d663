/**
 The scheduling lock (framework/scheduler/manager.go) and its copy for the outbox poller
 (framework/event/event_bus.go): one row per job, taken until a time in the future.

 `ShedLock` holds the row and the code that changes it. `ShedLockProtocol` lets any number of instances run
 one job over the row, statement by statement, with an integer clock (nanoseconds).
 */
module ShedLock {
  import opened Wrappers

  /** `lockedBy` is the instance id. */
  datatype LockRow = LockRow(lockUntil: int, lockedAt: int, lockedBy: nat)

  /** How long a run keeps others out at most, and at least. */
  datatype Timing = Timing(atMost: nat, atLeast: nat)

  const MINUTE := 60_000_000_000

  /** `parsed` is what `time.ParseDuration` made of the text, if anything. */
  function ParseDurationWithFallback(parsed: Option<int>, fallback: nat): nat {
    if parsed.None? || parsed.value < 0 then fallback else parsed.value
  }

  function ParseLockDurations(most: Option<int>, least: Option<int>): Timing {
    Timing(ParseDurationWithFallback(most, 10 * MINUTE), ParseDurationWithFallback(least, 0))
  }

  /** How a commit can end. An unconfirmed one took effect but was reported as an error. */
  datatype Commit = Confirmed | Refused | Unconfirmed

  /**
   What the database answers to one run of a job: whether there is one, whether the read and the insert or update
   that takes the lock go through, how the commit ends, and whether the release goes through.
   */
  datatype Answers = Answers(database: bool, read: bool, written: bool, commit: Commit, released: bool)

  /** How the job itself ends. A panic is recovered and reported as an error. */
  datatype JobEnd = Returned | ReturnedError | Panicked

  /** The time the lock is kept to: never before `atLeast` has passed since the run was locked. */
  function CalculateReleaseTime(clock: int, now: int, atLeast: int): (t: int)
    ensures t >= clock && t >= now + atLeast && (t == clock || t == now + atLeast)
  {
    if clock < now + atLeast then now + atLeast else clock
  }

  predicate Expired(row: Option<LockRow>, now: int) {
    row.Some? && row.value.lockUntil <= now
  }

  function Released(row: Option<LockRow>, id: nat, until: int): Option<LockRow> {
    if row.Some? && row.value.lockedBy == id then Some(row.value.(lockUntil := until)) else row
  }

  class LockTable {
    var row: Option<LockRow>

    constructor ()
      ensures row == None
    {
      row := None;
    }

    /** INSERT, which fails if the row has come into being. */
    method Create(record: LockRow, answer: bool) returns (ok: bool)
      modifies this
      ensures ok == (old(row).None? && answer)
      ensures row == if ok then Some(record) else old(row)
    {
      ok := row.None? && answer;
      if ok {
        row := Some(record);
      }
    }

    /** UPDATE ... WHERE lock_until <= now */
    method UpdateIfExpired(now: int, record: LockRow, answer: bool) returns (affected: bool)
      modifies this
      ensures affected <==> old(row).Some? && old(row).value.lockUntil <= now && answer
      ensures row == if affected then Some(record) else old(row)
    {
      affected := row.Some? && row.value.lockUntil <= now && answer;
      if affected {
        row := Some(record);
      }
    }

    /** A transaction that is not committed. */
    method Restore(before: Option<LockRow>)
      modifies this
      ensures row == before
    {
      row := before;
    }

    /** UPDATE lock_until WHERE locked_by = id */
    method ReleaseShedLock(id: nat, until: int, answer: bool)
      modifies this
      ensures answer && old(row).Some? && old(row).value.lockedBy == id ==>
        row == Some(LockRow(until, old(row).value.lockedAt, id))
      ensures !answer || old(row).None? || old(row).value.lockedBy != id ==> row == old(row)
    {
      if answer && row.Some? && row.value.lockedBy == id {
        row := Some(LockRow(until, row.value.lockedAt, row.value.lockedBy));
      }
    }
  }

  class AcquireTxHelper {
    const now: int
    const lockRecord: LockRow
    var acquired: bool

    constructor (lockUntil: int, now: int, instanceId: nat)
      ensures !acquired && this.now == now && lockRecord == LockRow(lockUntil, now, instanceId)
    {
      this.now := now;
      lockRecord := LockRow(lockUntil, now, instanceId);
      acquired := false;
    }

    /**
     The body of the lock transaction when no other instance gets in between. Only a failed read is an error; a
     failed insert or update means that the lock is not acquired.
     */
    method Execute(table: LockTable, a: Answers) returns (st: Status)
      requires !acquired
      modifies this, table
      ensures st.Success? <==> a.read
      ensures acquired <==>
        a.read && a.written && (old(table.row).None? || old(table.row).value.lockUntil <= now)
      ensures table.row == if acquired then Some(lockRecord) else old(table.row)
    {
      if !a.read {
        return Failure;
      }
      if table.row == None {
        HandleNotFound(table, a);
      } else {
        HandleExisting(table, table.row.value, a);
      }
      st := Success;
    }

    method HandleNotFound(table: LockTable, a: Answers)
      requires !acquired && table.row.None?
      modifies this, table
      ensures acquired <==> a.written
      ensures table.row == if acquired then Some(lockRecord) else None
    {
      var ok := table.Create(lockRecord, a.written);
      if ok {
        acquired := true;
      }
    }

    method HandleExisting(table: LockTable, existing: LockRow, a: Answers)
      requires !acquired && table.row == Some(existing)
      modifies this, table
      ensures acquired <==> existing.lockUntil <= now && a.written
      ensures table.row == if acquired then Some(lockRecord) else old(table.row)
    {
      if existing.lockUntil < now || existing.lockUntil == now {
        acquired := table.UpdateIfExpired(now, lockRecord, a.written);
      }
    }
  }

  /**
   `acquireShedLock`: the lock transaction with its commit. The flag says what the transaction did, the status
   whether that is known to stand, and the row whether it does.
   */
  method AcquireShedLock(table: LockTable, lockUntil: int, now: int, id: nat, a: Answers)
    returns (acquired: bool, st: Status)
    modifies table
    ensures acquired <==>
      a.read && a.written && (old(table.row).None? || old(table.row).value.lockUntil <= now)
    ensures st.Success? <==> a.read && a.commit.Confirmed?
    ensures table.row == if acquired && !a.commit.Refused? then Some(LockRow(lockUntil, now, id)) else old(table.row)
  {
    var before := table.row;
    var helper := new AcquireTxHelper(lockUntil, now, id);
    st := helper.Execute(table, a);
    acquired := helper.acquired;
    if st.Success? && !a.commit.Confirmed? {
      st := Failure;
      if a.commit.Refused? {
        table.Restore(before);
      }
    }
  }

  /** `executeWithRecover` */
  function ExecuteWithRecover(job: JobEnd): Status {
    if job.Returned? then Success else Failure
  }

  /**
   `executeWithLock` on one instance with nobody in between; `ended` is the clock when the job is over. Without a
   database the job runs unlocked. Otherwise it runs exactly when the lock was taken and the commit confirmed,
   however it then ends; and then the row stays locked to the end of the run and at least the configured minimum from
   its start, or, if the release fails, to the configured maximum from its start. So it does after an unconfirmed
   commit, with no run at all. An unreadable or negative maximum stands for ten minutes, such a minimum for none.
   */
  method ExecuteWithLock(table: LockTable, id: nat, now: int, ended: int, most: Option<int>, least: Option<int>,
                         a: Answers, job: JobEnd)
    returns (ran: bool, st: Status)
    requires now <= ended
    modifies table
    ensures a.database ==>
      var taken := a.read && a.written && (old(table.row).None? || old(table.row).value.lockUntil <= now);
      var longest := if most.Some? && most.value >= 0 then most.value else 600_000_000_000;
      var shortest := if least.Some? && least.value >= 0 then least.value else 0;
      && (ran <==> taken && a.commit.Confirmed?)
      && (st.Success? <==> a.read && a.commit.Confirmed? && (ran ==> job.Returned?))
      && table.row ==
        if !taken || a.commit.Refused? then old(table.row)
        else Some(LockRow(if !ran || !a.released then now + longest
                          else if ended < now + shortest then now + shortest else ended, now, id))
    ensures !a.database ==> ran && table.row == old(table.row) && (st.Success? <==> job.Returned?)
  {
    if !a.database {
      return true, ExecuteWithRecover(job);
    }
    var tm := ParseLockDurations(most, least);
    var acquired;
    acquired, st := AcquireShedLock(table, now + tm.atMost, now, id, a);
    ran := acquired && st.Success?;
    if ran {
      st := ExecuteWithRecover(job);
      table.ReleaseShedLock(id, CalculateReleaseTime(ended, now, tm.atLeast), a.released);
    }
  }
}

module ShedLockProtocol {
  import opened ShedLock
  import opened Wrappers

  datatype Phase =
    | Idle
    | Wanting(now: int)             // read the clock in `executeWithLock`
    | Creating(now: int)            // found no row
    | Taking(now: int)              // found an expired row
    | Running(now: int)             // the job runs, locked since `now`
    | Ended(now: int)               // the job is over
    | Releasing(now: int, until: int)
    | Dead

  /** `acquisitions`: the time each successful acquisition was made at, in the order they took effect. */
  datatype State = State(clock: int, row: Option<LockRow>, procs: map<nat, Phase>, acquisitions: seq<int>)

  function Init(): State {
    State(0, None, map[], [])
  }

  function PhaseOf(s: State, p: nat): Phase {
    if p in s.procs then s.procs[p] else Idle
  }

  datatype Action =
    | Advance(to: int)
    | ReadClock(p: nat)
    | ReadRow(p: nat)
    | TakeLock(p: nat)
    | TakeUnconfirmed(p: nat)       // the commit takes effect, but is reported as an error: the job does not run
    | EndJob(p: nat)
    | ComputeRelease(p: nat)
    | Release(p: nat)
    | Fail(p: nat)                  // a statement fails, or the lock attempt is given up
    | Crash(p: nat)

  predicate Enabled(s: State, a: Action) {
    match a
    case Advance(to) => s.clock <= to
    case ReadClock(p) => PhaseOf(s, p).Idle?
    case ReadRow(p) => PhaseOf(s, p).Wanting?
    case TakeLock(p) => PhaseOf(s, p).Creating? || PhaseOf(s, p).Taking?
    case TakeUnconfirmed(p) => PhaseOf(s, p).Creating? || PhaseOf(s, p).Taking?
    case EndJob(p) => PhaseOf(s, p).Running?
    case ComputeRelease(p) => PhaseOf(s, p).Ended?
    case Release(p) => PhaseOf(s, p).Releasing?
    case Fail(p) => var ph := PhaseOf(s, p); ph.Wanting? || ph.Creating? || ph.Taking? || ph.Releasing?
    case Crash(p) => true
  }

  function To(s: State, p: nat, ph: Phase): State {
    s.(procs := s.procs[p := ph])
  }

  /** The conditional write of the row, after which the process is in phase `ph` if it took effect. */
  function Taken(tm: Timing, s: State, p: nat, ph: Phase): State
    requires PhaseOf(s, p).Creating? || PhaseOf(s, p).Taking?
  {
    var was := PhaseOf(s, p);
    if (if was.Creating? then s.row.None? else Expired(s.row, was.now)) then
      To(s, p, ph)
      .(row := Some(LockRow(was.now + tm.atMost, was.now, p)), acquisitions := s.acquisitions + [was.now])
    else To(s, p, Idle)
  }

  function Next(tm: Timing, s: State, a: Action): State
    requires Enabled(s, a)
  {
    match a
    case Advance(to) => s.(clock := to)
    case ReadClock(p) => To(s, p, Wanting(s.clock))
    case ReadRow(p) =>
      var now := PhaseOf(s, p).now;
      To(s, p, if s.row.None? then Creating(now) else if Expired(s.row, now) then Taking(now) else Idle)
    case TakeLock(p) => Taken(tm, s, p, Running(PhaseOf(s, p).now))
    case TakeUnconfirmed(p) => Taken(tm, s, p, Idle)
    case EndJob(p) => To(s, p, Ended(PhaseOf(s, p).now))
    case ComputeRelease(p) =>
      var now := PhaseOf(s, p).now;
      To(s, p, Releasing(now, CalculateReleaseTime(s.clock, now, tm.atLeast)))
    case Release(p) => To(s, p, Idle).(row := Released(s.row, p, PhaseOf(s, p).until))
    case Fail(p) => To(s, p, Idle)
    case Crash(p) => To(s, p, Dead)
  }

  predicate CanStep(tm: Timing, s: State, s': State, a: Action) {
    Enabled(s, a) && s' == Next(tm, s, a)
  }

  ghost predicate Steps(tm: Timing, s: State, s': State) {
    exists a :: CanStep(tm, s, s', a)
  }

  ghost predicate IsRun(tm: Timing, run: seq<State>) {
    && |run| > 0 && run[0] == Init()
    && forall i | 0 < i < |run| :: Steps(tm, run[i - 1], run[i])
  }

  ghost predicate Reachable(tm: Timing, s: State) {
    exists run :: IsRun(tm, run) && run[|run| - 1] == s
  }

  // ---------------------------------------------------------------------------------------------
  // The invariant.

  /** The distance that two acquisitions keep. */
  function Gap(tm: Timing): nat {
    if tm.atLeast < tm.atMost then tm.atLeast else tm.atMost
  }

  predicate Locked(ph: Phase) {
    ph.Running? || ph.Ended? || ph.Releasing?
  }

  /** A run either still owns the row as it took it, or its time is up. */
  ghost predicate PhaseInv(tm: Timing, s: State, p: nat, ph: Phase) {
    && (ph.Wanting? || ph.Creating? || ph.Taking? ==> ph.now <= s.clock)
    && (Locked(ph) ==>
          && s.row.Some? && s.acquisitions != []
          && (s.row.value.lockedBy == p ==>
                s.row.value.lockUntil == ph.now + tm.atMost && ph.now == s.acquisitions[|s.acquisitions| - 1])
          && (s.row.value.lockedBy != p ==> s.clock >= ph.now + tm.atMost))
    && (ph.Releasing? ==> ph.until >= ph.now + tm.atLeast)
  }

  ghost predicate Spaced(tm: Timing, s: State) {
    && (forall i | 0 < i < |s.acquisitions| :: s.acquisitions[i] >= s.acquisitions[i - 1] + Gap(tm))
    && (s.acquisitions != [] <==> s.row.Some?)
    && (s.row.Some? ==> s.row.value.lockUntil >= s.acquisitions[|s.acquisitions| - 1] + Gap(tm))
  }

  ghost predicate Inv(tm: Timing, s: State) {
    && Spaced(tm, s)
    && forall p | p in s.procs :: PhaseInv(tm, s, p, s.procs[p])
  }

  lemma TakenKeepsSpacing(tm: Timing, s: State, p: nat, ph: Phase)
    requires Spaced(tm, s) && (PhaseOf(s, p).Creating? || PhaseOf(s, p).Taking?)
    ensures Spaced(tm, Taken(tm, s, p, ph))
  {
  }

  lemma ReleaseKeepsSpacing(tm: Timing, s: State, p: nat)
    requires Spaced(tm, s) && Enabled(s, Release(p)) && PhaseInv(tm, s, p, s.procs[p])
    ensures Spaced(tm, Next(tm, s, Release(p)))
  {
  }

  lemma StepKeepsSpacing(tm: Timing, s: State, a: Action)
    requires Inv(tm, s) && Enabled(s, a)
    ensures Spaced(tm, Next(tm, s, a))
  {
    hide PhaseInv, Taken, Gap, Released;
    match a
    case TakeLock(p) => TakenKeepsSpacing(tm, s, p, Running(PhaseOf(s, p).now));
    case TakeUnconfirmed(p) => TakenKeepsSpacing(tm, s, p, Idle);
    case Release(p) => ReleaseKeepsSpacing(tm, s, p);
    case _ =>
  }

  lemma OthersKeepPhase(tm: Timing, s: State, a: Action, p: nat)
    requires Inv(tm, s) && Enabled(s, a) && p in s.procs && (a.Advance? || p != a.p)
    ensures PhaseInv(tm, Next(tm, s, a), p, s.procs[p])
  {
    hide Spaced;
    assert PhaseInv(tm, s, p, s.procs[p]);
    if !a.Advance? && a.p in s.procs {
      assert PhaseInv(tm, s, a.p, s.procs[a.p]);
    }
  }

  lemma OwnPhaseKept(tm: Timing, s: State, a: Action)
    requires Inv(tm, s) && Enabled(s, a) && !a.Advance?
    ensures PhaseInv(tm, Next(tm, s, a), a.p, PhaseOf(Next(tm, s, a), a.p))
  {
    hide Spaced;
    assert a.p in s.procs ==> PhaseInv(tm, s, a.p, s.procs[a.p]);
  }

  lemma StepKeepsPhase(tm: Timing, s: State, a: Action, p: nat)
    requires Inv(tm, s) && Enabled(s, a) && p in Next(tm, s, a).procs
    ensures PhaseInv(tm, Next(tm, s, a), p, Next(tm, s, a).procs[p])
  {
    hide Inv, PhaseInv;
    if a.Advance? || p != a.p {
      OthersKeepPhase(tm, s, a, p);
    } else {
      OwnPhaseKept(tm, s, a);
    }
  }

  lemma {:induction false} RunKeepsInv(tm: Timing, run: seq<State>, n: nat)
    requires IsRun(tm, run) && n < |run|
    ensures Inv(tm, run[n])
  {
    if n > 0 {
      RunKeepsInv(tm, run, n - 1);
      assert Steps(tm, run[n - 1], run[n]);
      var a :| CanStep(tm, run[n - 1], run[n], a);
      StepKeepsSpacing(tm, run[n - 1], a);
      forall p | p in run[n].procs ensures PhaseInv(tm, run[n], p, run[n].procs[p]) {
        StepKeepsPhase(tm, run[n - 1], a, p);
      }
    }
  }

  lemma ReachableInv(tm: Timing, s: State)
    requires Reachable(tm, s)
    ensures Inv(tm, s)
  {
    var run :| IsRun(tm, run) && run[|run| - 1] == s;
    RunKeepsInv(tm, run, |run| - 1);
  }

  lemma {:induction false} GapsAddUp(times: seq<int>, gap: nat, i: nat, j: nat)
    requires forall k | 0 < k < |times| :: times[k] >= times[k - 1] + gap
    requires i < j < |times|
    ensures times[j] >= times[i] + (j - i) * gap
    decreases j
  {
    assert times[j] >= times[j - 1] + gap;
    if i + 1 < j {
      GapsAddUp(times, gap, i, j - 1);
      assert (j - i) * gap == (j - 1 - i) * gap + gap;
    }
  }

  /** Any two acquisitions are at least min(atLeast, atMost) apart for every acquisition between them. */
  lemma AcquisitionsSpaced(tm: Timing, s: State, i: nat, j: nat)
    requires Reachable(tm, s) && i < j < |s.acquisitions|
    ensures s.acquisitions[j] >= s.acquisitions[i] + (j - i) * Gap(tm)
  {
    hide Reachable, PhaseInv, Gap;
    ReachableInv(tm, s);
    GapsAddUp(s.acquisitions, Gap(tm), i, j);
  }

  /** A run that has not used up `atMost` is the only such run, and the latest acquisition is its own. */
  lemma InTimeRunsExclude(tm: Timing, s: State, p: nat, q: nat)
    requires Reachable(tm, s)
    requires PhaseOf(s, p).Running? && s.clock < PhaseOf(s, p).now + tm.atMost
    ensures PhaseOf(s, q).Running? && s.clock < PhaseOf(s, q).now + tm.atMost ==> p == q
    ensures s.acquisitions != [] && PhaseOf(s, p).now == s.acquisitions[|s.acquisitions| - 1]
  {
    ReachableInv(tm, s);
    assert PhaseInv(tm, s, p, s.procs[p]);
    if q in s.procs {
      assert PhaseInv(tm, s, q, s.procs[q]);
    }
  }

  // ---------------------------------------------------------------------------------------------
  // The configured minimum.

  lemma ReachableStep(tm: Timing, s: State, a: Action)
    requires Reachable(tm, s) && Enabled(s, a)
    ensures Reachable(tm, Next(tm, s, a))
  {
    var s' := Next(tm, s, a);
    assert CanStep(tm, s, s', a);
    var run :| IsRun(tm, run) && run[|run| - 1] == s;
    var longer := run + [s'];
    assert IsRun(tm, longer) && longer[|longer| - 1] == s';
  }

  /** What an attempt of `p` does that nobody gets in between: the clock, the row, the lock. */
  function Attempted(tm: Timing, s: State, p: nat): State
    requires PhaseOf(s, p).Idle?
  {
    var looked := Next(tm, Next(tm, s, ReadClock(p)), ReadRow(p));
    if Enabled(looked, TakeLock(p)) then Next(tm, looked, TakeLock(p)) else looked
  }

  /** The steps of an undisturbed attempt end as the lock transaction does when every statement goes through. */
  lemma UndisturbedAttempt(tm: Timing, s: State, p: nat)
    requires PhaseOf(s, p).Idle?
    ensures var t := Attempted(tm, s, p);
      var free := s.row.None? || s.row.value.lockUntil <= s.clock;
      && PhaseOf(t, p) == (if free then Running(s.clock) else Idle)
      && t.row == (if free then Some(LockRow(s.clock + tm.atMost, s.clock, p)) else s.row)
      && t.clock == s.clock && t.acquisitions == s.acquisitions + if free then [s.clock] else []
  {
  }

  /** The end of a run: the job ends at `ended`, and the release is computed and goes through. */
  function Finished(tm: Timing, s: State, p: nat, ended: int): State
    requires PhaseOf(s, p).Running? && s.clock <= ended
  {
    var over := Next(tm, Next(tm, s, Advance(ended)), EndJob(p));
    Next(tm, Next(tm, over, ComputeRelease(p)), Release(p))
  }

  /** So do those of an undisturbed run, compared with `executeWithLock`. */
  lemma UndisturbedRun(tm: Timing, s: State, p: nat, ended: int)
    requires PhaseOf(s, p).Idle? && (s.row.None? || Expired(s.row, s.clock)) && s.clock <= ended
    ensures PhaseOf(Attempted(tm, s, p), p).Running? && Attempted(tm, s, p).clock == s.clock
    ensures Finished(tm, Attempted(tm, s, p), p, ended).row
         == Some(LockRow(if ended < s.clock + tm.atLeast then s.clock + tm.atLeast else ended, s.clock, p))
  {
    UndisturbedAttempt(tm, s, p);
  }

  lemma ReachableAttempt(tm: Timing, s: State, p: nat)
    requires Reachable(tm, s) && PhaseOf(s, p).Idle?
    ensures Reachable(tm, Attempted(tm, s, p))
  {
    hide Reachable;
    var read := Next(tm, s, ReadClock(p));
    ReachableStep(tm, s, ReadClock(p));
    ReachableStep(tm, read, ReadRow(p));
    var looked := Next(tm, read, ReadRow(p));
    if Enabled(looked, TakeLock(p)) {
      ReachableStep(tm, looked, TakeLock(p));
    }
  }

  /** An instance that takes the lock and dies lets another in after `atMost`. */
  lemma CrashedHolder(tm: Timing) returns (s: State)
    ensures Reachable(tm, s) && s.acquisitions == [0, tm.atMost]
  {
    hide Reachable;
    FirstAttempt(tm);
    UndisturbedAttempt(tm, Init(), 1);
    var held := Attempted(tm, Init(), 1);
    ReachableStep(tm, held, Crash(1));
    var dead := Next(tm, held, Crash(1));
    ReachableStep(tm, dead, Advance(tm.atMost));
    var later := Next(tm, dead, Advance(tm.atMost));
    UndisturbedAttempt(tm, later, 2);
    ReachableAttempt(tm, later, 2);
    s := Attempted(tm, later, 2);
  }

  lemma FirstAttempt(tm: Timing)
    ensures Reachable(tm, Attempted(tm, Init(), 1))
  {
    assert IsRun(tm, [Init()]);
    ReachableAttempt(tm, Init(), 1);
  }

  lemma ReachableFinish(tm: Timing, s: State, p: nat, ended: int)
    requires Reachable(tm, s) && PhaseOf(s, p).Running? && s.clock <= ended
    ensures Reachable(tm, Finished(tm, s, p, ended)) && Finished(tm, s, p, ended).clock == ended
    ensures Finished(tm, s, p, ended).acquisitions == s.acquisitions
    ensures forall q | q != p :: PhaseOf(Finished(tm, s, p, ended), q) == PhaseOf(s, q)
  {
    hide Reachable;
    ReachableStep(tm, s, Advance(ended));
    var later := Next(tm, s, Advance(ended));
    ReachableStep(tm, later, EndJob(p));
    var over := Next(tm, later, EndJob(p));
    ReachableStep(tm, over, ComputeRelease(p));
    ReachableStep(tm, Next(tm, over, ComputeRelease(p)), Release(p));
  }

  /** A run that ends at once lets another in after `atLeast`. */
  lemma QuickRuns(tm: Timing) returns (s: State)
    ensures Reachable(tm, s) && s.acquisitions == [0, tm.atLeast]
  {
    hide Reachable, Finished;
    FirstAttempt(tm);
    UndisturbedAttempt(tm, Init(), 1);
    UndisturbedRun(tm, Init(), 1, 0);
    var held := Attempted(tm, Init(), 1);
    ReachableFinish(tm, held, 1, 0);
    var free := Finished(tm, held, 1, 0);
    ReachableStep(tm, free, Advance(tm.atLeast));
    var later := Next(tm, free, Advance(tm.atLeast));
    OthersIdle(tm, 2);
    UndisturbedAttempt(tm, later, 2);
    ReachableAttempt(tm, later, 2);
    s := Attempted(tm, later, 2);
  }

  lemma OthersIdle(tm: Timing, q: nat)
    requires q != 1
    ensures PhaseOf(Attempted(tm, Init(), 1), q).Idle?
  {
  }

  /** The configured maximum: after a holder that died, the next attempt gets the lock exactly from then on. */
  lemma AfterCrash(most: Option<int>, least: Option<int>, later: nat)
    ensures
      var tm := ParseLockDurations(most, least);
      var held := Attempted(tm, Init(), 1);
      var waited := Next(tm, Next(tm, held, Crash(1)), Advance(later));
      && PhaseOf(held, 1).Running? && PhaseOf(waited, 2).Idle?
      && (PhaseOf(Attempted(tm, waited, 2), 2).Running? <==>
          later >= if most.Some? && most.value >= 0 then most.value else 600_000_000_000)
  {
    hide Attempted;
    var tm := ParseLockDurations(most, least);
    UndisturbedAttempt(tm, Init(), 1);
    OthersIdle(tm, 2);
    var held := Attempted(tm, Init(), 1);
    UndisturbedAttempt(tm, Next(tm, Next(tm, held, Crash(1)), Advance(later)), 2);
  }

  /** The configured minimum: after a run that ended at once, the next attempt gets the lock exactly from then on. */
  lemma AfterQuickRun(most: Option<int>, least: Option<int>, later: nat)
    ensures
      var tm := ParseLockDurations(most, least);
      var held := Attempted(tm, Init(), 1);
      && PhaseOf(held, 1).Running? && held.clock == 0
      && var waited := Next(tm, Finished(tm, held, 1, 0), Advance(later));
        && PhaseOf(waited, 2).Idle?
        && (PhaseOf(Attempted(tm, waited, 2), 2).Running? <==>
            later >= if least.Some? && least.value >= 0 then least.value else 0)
  {
    hide Attempted, Finished, Reachable;
    var tm := ParseLockDurations(most, least);
    UndisturbedAttempt(tm, Init(), 1);
    UndisturbedRun(tm, Init(), 1, 0);
    OthersIdle(tm, 2);
    FirstAttempt(tm);
    var held := Attempted(tm, Init(), 1);
    ReachableFinish(tm, held, 1, 0);
    UndisturbedAttempt(tm, Next(tm, Finished(tm, held, 1, 0), Advance(later)), 2);
  }

  /** Acquisitions are always at least this far apart. */
  ghost predicate KeepsApart(tm: Timing, least: int) {
    forall s, i | Reachable(tm, s) && 0 < i < |s.acquisitions| :: s.acquisitions[i] >= s.acquisitions[i - 1] + least
  }

  /**
   What the configured texts mean: acquisitions of the job keep a distance if and only if it is at most both
   durations, where a text that is no duration, or a negative one, stands for ten minutes at most and none at
   least. So the configured minimum is kept if and only if it is not greater than the maximum.
   */
  lemma ConfiguredDistance(most: Option<int>, least: Option<int>, distance: int)
    requires distance > 0
    ensures KeepsApart(ParseLockDurations(most, least), distance) <==>
      && (if most.Some? && most.value >= 0 then distance <= most.value else distance <= 600_000_000_000)
      && least.Some? && distance <= least.value
  {
    var tm := ParseLockDurations(most, least);
    hide Reachable;
    if distance <= Gap(tm) {
      forall s, i | Reachable(tm, s) && 0 < i < |s.acquisitions|
        ensures s.acquisitions[i] >= s.acquisitions[i - 1] + distance {
        AcquisitionsSpaced(tm, s, i - 1, i);
      }
    }
    if KeepsApart(tm, distance) {
      var s := CrashedHolder(tm);
      assert s.acquisitions[1] >= s.acquisitions[0] + distance;
      var t := QuickRuns(tm);
      assert t.acquisitions[1] >= t.acquisitions[0] + distance;
    }
  }

  /** The outbox poller's lock is the same lock held for at most 45 seconds and for no minimum. */
  const POLLER := Timing(45_000_000_000, 0)

  /** Two pollers can only be at work together once the earlier one has been at it for 45 seconds. */
  lemma PollersExclude(s: State, p: nat, q: nat)
    requires Reachable(POLLER, s) && p != q && PhaseOf(s, p).Running? && PhaseOf(s, q).Running?
    ensures s.clock >= PhaseOf(s, p).now + 45_000_000_000 || s.clock >= PhaseOf(s, q).now + 45_000_000_000
  {
    if s.clock < PhaseOf(s, p).now + POLLER.atMost {
      InTimeRunsExclude(POLLER, s, p, q);
    }
  }
}
