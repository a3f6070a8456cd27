/**
 * The check scheduler: leases on monitors, and what follows failures of the checker itself
 * (src/worker/monitor/schedule.ts). Leases are as long as the SQL function in drizzle/0029_monitor_lease.sql
 * says. A time is a whole number of milliseconds.
 */
module Schedule {
  import opened Prelude

  type Id = nat

  /** What the operator can set: src/lib/constants/worker.ts and RETRY_DELAY_MS. */
  datatype Config = Config(maxAttempts: nat, initialBackoff: nat, maxBackoff: nat, retryDelay: nat)

  const DEFAULTS := Config(3, 5_000, 300_000, 1_000)

  datatype Row = Row(active: bool, nextCheckAt: int, backoffUntil: Option<int>, retryCount: nat,
                     deadLetteredAt: Option<int>, intervalSeconds: nat, timeoutSeconds: nat, retries: nat)

  // ---------------------------------------------------------------------------------------------
  // Times
  // ---------------------------------------------------------------------------------------------

  /** Whole seconds, rounded up. */
  function Seconds(ms: nat): nat {
    (ms + 999) / 1000
  }

  /** The most that `retries + 1` attempts can take, with half a minute to spare. */
  function LeaseSeconds(cfg: Config, timeoutSeconds: nat, retries: nat): nat {
    (timeoutSeconds + Seconds(cfg.retryDelay)) * (retries + 1) + 30
  }

  function Lease(cfg: Config, r: Row): nat {
    1000 * LeaseSeconds(cfg, r.timeoutSeconds, r.retries)
  }

  function Pow2(n: nat): nat {
    if n == 0 then 1 else 2 * Pow2(n - 1)
  }

  /** The wait after the n-th failure in a row. */
  function Backoff(cfg: Config, n: nat): nat
    requires n > 0
  {
    Min(cfg.initialBackoff * Pow2(n - 1), cfg.maxBackoff)
  }

  /** The bound that the sweep for overlong schedules tests with. */
  function Furthest(cfg: Config, r: Row): nat {
    1000 * (Max(r.intervalSeconds, Seconds(cfg.maxBackoff)) + LeaseSeconds(cfg, r.timeoutSeconds, r.retries))
  }

  lemma {:induction false} LeaseIsPositive(cfg: Config, r: Row)
    ensures Lease(cfg, r) >= 30_000
  {
    assert (r.timeoutSeconds + Seconds(cfg.retryDelay)) * (r.retries + 1) >= 0;
  }

  lemma {:induction false} Pow2Rises(m: nat, n: nat)
    requires m <= n
    ensures Pow2(m) <= Pow2(n)
    decreases n
  {
    if m < n { Pow2Rises(m, n - 1); }
  }

  /** The wait never shrinks while the failures go on, and never passes the cap. */
  lemma {:induction false} BackoffRisesToTheCap(cfg: Config, m: nat, n: nat)
    requires 0 < m <= n
    ensures Backoff(cfg, m) <= Backoff(cfg, n) <= cfg.maxBackoff
  {
    Pow2Rises(m - 1, n - 1);
    assert cfg.initialBackoff * Pow2(m - 1) <= cfg.initialBackoff * Pow2(n - 1);
  }

  /** By default the first wait is five seconds and the cap, of five minutes, is reached with the seventh failure. */
  lemma {:induction false} DefaultCapIsReached(n: nat)
    requires n > 0
    ensures Backoff(DEFAULTS, 1) == 5_000 && Backoff(DEFAULTS, n) <= 300_000
    ensures Backoff(DEFAULTS, n) == 300_000 <==> n >= 7
    ensures DEFAULTS.maxAttempts == 3 && DEFAULTS.retryDelay == 1_000
  {
    assert Pow2(0) == 1 && Pow2(1) == 2 && Pow2(2) == 4;
    assert Pow2(3) == 8 && Pow2(4) == 16 && Pow2(5) == 32;
    assert Pow2(6) == 64;
    if n >= 7 { Pow2Rises(6, n - 1); } else { Pow2Rises(n - 1, 5); }
  }

  // ---------------------------------------------------------------------------------------------
  // Claims, results and time
  // ---------------------------------------------------------------------------------------------

  predicate Due(r: Row, now: int) {
    && r.active
    && r.nextCheckAt <= now
    && (r.backoffUntil.None? || r.backoffUntil.value <= now)
  }

  function Claimed(cfg: Config, r: Row, now: int): Row {
    r.(backoffUntil := Some(now + Lease(cfg, r)))
  }

  /** `seen` is the row as the claim returned it. */
  function Succeeded(r: Row, seen: Row, now: int): Row {
    r.(nextCheckAt := now + 1000 * seen.intervalSeconds, retryCount := 0, backoffUntil := None,
       deadLetteredAt := if seen.deadLetteredAt.Some? then None else r.deadLetteredAt)
  }

  predicate Entering(cfg: Config, seen: Row, tracked: bool) {
    seen.retryCount + 1 >= cfg.maxAttempts && seen.deadLetteredAt.None? && tracked
  }

  function Failed(cfg: Config, r: Row, seen: Row, tracked: bool, now: int): Row {
    var due := now + Backoff(cfg, seen.retryCount + 1);
    r.(retryCount := seen.retryCount + 1, backoffUntil := Some(due), nextCheckAt := due,
       deadLetteredAt := if Entering(cfg, seen, tracked) then Some(now) else r.deadLetteredAt)
  }

  /** The later of the two times, ignoring a missing one as GREATEST does. */
  function DueAt(r: Row): int {
    if r.backoffUntil.Some? then Max(r.nextCheckAt, r.backoffUntil.value) else r.nextCheckAt
  }

  predicate Overlong(cfg: Config, r: Row, now: int) {
    r.active && DueAt(r) > now + Furthest(cfg, r)
  }

  function Released(cfg: Config, r: Row, now: int): Row {
    if Overlong(cfg, r, now) then r.(nextCheckAt := now, backoffUntil := None) else r
  }

  /** A worker that holds a monitor until its lease ends or its result is recorded. */
  datatype Hold = Hold(id: Id, seen: Row, until: int)

  /** What became of the checks, and what the customer is told, oldest first. */
  datatype Entry = CheckOk(id: Id) | CheckFailed(id: Id) | ChecksStopped(id: Id) | ChecksResumed(id: Id)

  /**
   * `tracked` is whether the migration that lets rows record dead letter has run, and `trackedFirst` whether it
   * had before the first step.
   */
  datatype State = State(cfg: Config, rows: map<Id, Row>, holds: seq<Hold>, log: seq<Entry>,
                         tracked: bool, trackedFirst: bool, clock: int)

  /**
   * A worker that dies takes no step: its hold stays, and its lease runs out. A result is recorded
   * before its lease ends.
   */
  datatype Step =
    | Create(id: Id, intervalSeconds: nat, timeoutSeconds: nat, retries: nat, at: int)
    | Pause(id: Id)
    | Migrate
    | Claim(id: Id, at: int)
    | Succeed(hold: nat, at: int)
    | Fail(hold: nat, at: int)
    | ReleaseOverlong(at: int)

  predicate Enabled(s: State, step: Step) {
    match step
    case Create(id, _, _, _, at) => id !in s.rows && s.clock <= at
    case Pause(id) => id in s.rows
    case Migrate => true
    case Claim(id, at) => id in s.rows && s.clock <= at && Due(s.rows[id], at)
    case Succeed(k, at) => k < |s.holds| && s.clock <= at < s.holds[k].until && s.holds[k].id in s.rows
    case Fail(k, at) => k < |s.holds| && s.clock <= at < s.holds[k].until && s.holds[k].id in s.rows
    case ReleaseOverlong(at) => s.clock <= at
  }

  /** The row a claim returns: no dead letter while the column is missing. */
  function Seen(r: Row, tracked: bool): Row {
    if tracked then r else r.(deadLetteredAt := None)
  }

  /** What a result adds to the log. */
  function Told(check: Entry, notice: Option<Entry>): seq<Entry> {
    [check] + if notice.Some? then [notice.value] else []
  }

  function ResumedNotice(h: Hold): Option<Entry> {
    if h.seen.deadLetteredAt.Some? then Some(ChecksResumed(h.id)) else None
  }

  function StoppedNotice(s: State, h: Hold): Option<Entry> {
    if Entering(s.cfg, h.seen, s.tracked) then Some(ChecksStopped(h.id)) else None
  }

  function ClaimedState(s: State, id: Id, at: int): State
    requires id in s.rows
  {
    var row := Claimed(s.cfg, s.rows[id], at);
    s.(rows := s.rows[id := row], clock := at,
       holds := s.holds + [Hold(id, Seen(row, s.tracked), at + Lease(s.cfg, row))])
  }

  function SucceededState(s: State, k: nat, at: int): State
    requires k < |s.holds| && s.holds[k].id in s.rows
  {
    var h := s.holds[k];
    s.(rows := s.rows[h.id := Succeeded(s.rows[h.id], h.seen, at)], holds := Without(s.holds, k), clock := at,
       log := s.log + Told(CheckOk(h.id), ResumedNotice(h)))
  }

  function FailedState(s: State, k: nat, at: int): State
    requires k < |s.holds| && s.holds[k].id in s.rows
  {
    var h := s.holds[k];
    s.(rows := s.rows[h.id := Failed(s.cfg, s.rows[h.id], h.seen, s.tracked, at)],
       holds := Without(s.holds, k), clock := at,
       log := s.log + Told(CheckFailed(h.id), StoppedNotice(s, h)))
  }

  function ReleasedState(s: State, at: int): State {
    s.(rows := map id | id in s.rows :: Released(s.cfg, s.rows[id], at), clock := at)
  }

  function Next(s: State, step: Step): State {
    if !Enabled(s, step) then s
    else match step
      case Create(id, interval, timeout, retries, at) =>
        s.(rows := s.rows[id := Row(true, at, None, 0, None, interval, timeout, retries)], clock := at)
      case Pause(id) => s.(rows := s.rows[id := s.rows[id].(active := false)])
      case Migrate => s.(tracked := true)
      case Claim(id, at) => ClaimedState(s, id, at)
      case Succeed(k, at) => SucceededState(s, k, at)
      case Fail(k, at) => FailedState(s, k, at)
      case ReleaseOverlong(at) => ReleasedState(s, at)
  }

  function After(s: State, steps: seq<Step>): State {
    if steps == [] then s else Next(After(s, steps[..|steps| - 1]), steps[|steps| - 1])
  }

  function Run(cfg: Config, tracked: bool, steps: seq<Step>): State {
    After(State(cfg, map[], [], [], tracked, tracked, 0), steps)
  }

  // ---------------------------------------------------------------------------------------------
  // What the log says of one monitor
  // ---------------------------------------------------------------------------------------------

  /** Failed checks in a row since one last succeeded. */
  function FailuresInARow(log: seq<Entry>, id: Id): nat {
    if log == [] then 0
    else
      var e, before := log[|log| - 1], FailuresInARow(log[..|log| - 1], id);
      if e == CheckOk(id) then 0 else if e == CheckFailed(id) then before + 1 else before
  }

  /** The customer's notices about one monitor. */
  function Notices(log: seq<Entry>, id: Id): seq<Entry> {
    if log == [] then []
    else
      var e, before := log[|log| - 1], Notices(log[..|log| - 1], id);
      if e == ChecksStopped(id) || e == ChecksResumed(id) then before + [e] else before
  }

  /** Stopped, resumed, stopped, resumed, and so on. */
  ghost predicate Alternate(notices: seq<Entry>) {
    forall i :: 0 <= i < |notices| ==> (notices[i].ChecksStopped? <==> i % 2 == 0)
  }

  lemma {:induction false} LogAppend(log: seq<Entry>, e: Entry, id: Id)
    ensures Notices(log + [e], id)
            == if e == ChecksStopped(id) || e == ChecksResumed(id) then Notices(log, id) + [e] else Notices(log, id)
    ensures FailuresInARow(log + [e], id)
            == if e == CheckOk(id) then 0 else if e == CheckFailed(id) then FailuresInARow(log, id) + 1
               else FailuresInARow(log, id)
  {
    assert (log + [e])[..|log|] == log;
  }

  lemma {:induction false} NoNews(log: seq<Entry>, more: seq<Entry>, id: Id)
    requires forall e :: e in more ==> e.id != id
    ensures Notices(log + more, id) == Notices(log, id) && FailuresInARow(log + more, id) == FailuresInARow(log, id)
  {
    if more == [] {
      assert log + more == log;
    } else {
      var n := |more| - 1;
      NoNews(log, more[..n], id);
      assert log + more == (log + more[..n]) + [more[n]];
      LogAppend(log + more[..n], more[n], id);
    }
  }

  // ---------------------------------------------------------------------------------------------
  // The invariant
  // ---------------------------------------------------------------------------------------------

  /** How far ahead of the clock the two times of a row may lie. */
  ghost predicate Near(cfg: Config, r: Row, clock: int) {
    && r.nextCheckAt <= clock + Max(1000 * r.intervalSeconds, cfg.maxBackoff)
    && (r.backoffUntil.Some? ==> r.backoffUntil.value <= clock + Max(Lease(cfg, r), cfg.maxBackoff))
  }

  /** The row tells what the log tells: the failures in a row, and the notices given. */
  ghost predicate RowTells(cfg: Config, tracked: bool, trackedFirst: bool, r: Row, failures: nat, notices: seq<Entry>) {
    && r.retryCount == failures
    && Alternate(notices)
    && (r.deadLetteredAt.Some? <==> |notices| % 2 == 1)
    && (r.deadLetteredAt.Some? ==> tracked && r.retryCount >= cfg.maxAttempts)
    && (trackedFirst && cfg.maxAttempts > 0 && r.retryCount >= cfg.maxAttempts ==> r.deadLetteredAt.Some?)
  }

  ghost predicate Tells(s: State, id: Id)
    requires id in s.rows
  {
    RowTells(s.cfg, s.tracked, s.trackedFirst, s.rows[id], FailuresInARow(s.log, id), Notices(s.log, id))
  }

  /** While its lease runs, a hold knows the row. */
  ghost predicate Knows(h: Hold, r: Row) {
    && r.backoffUntil == Some(h.until) && r.nextCheckAt <= h.until
    && h.seen.retryCount == r.retryCount && h.seen.deadLetteredAt == r.deadLetteredAt
    && h.seen.intervalSeconds == r.intervalSeconds
  }

  ghost predicate HoldOk(rows: map<Id, Row>, clock: int, h: Hold) {
    h.id in rows && (clock < h.until ==> Knows(h, rows[h.id]))
  }

  ghost predicate HoldsOk(rows: map<Id, Row>, clock: int, holds: seq<Hold>) {
    forall k :: 0 <= k < |holds| ==> HoldOk(rows, clock, holds[k])
  }

  /** A monitor has one live hold at most. */
  ghost predicate OneEach(clock: int, holds: seq<Hold>) {
    forall i, j :: 0 <= i < j < |holds| && clock < holds[i].until && clock < holds[j].until ==>
      holds[i].id != holds[j].id
  }

  ghost predicate AllNear(cfg: Config, rows: map<Id, Row>, clock: int) {
    forall id :: id in rows ==> Near(cfg, rows[id], clock)
  }

  ghost predicate AllTell(s: State) {
    && (forall id :: id in s.rows ==> Tells(s, id))
    && (forall i :: 0 <= i < |s.log| ==> s.log[i].id in s.rows)
    && (s.trackedFirst ==> s.tracked)
  }

  ghost predicate Inv(s: State) {
    && AllNear(s.cfg, s.rows, s.clock)
    && AllTell(s)
    && HoldsOk(s.rows, s.clock, s.holds)
    && OneEach(s.clock, s.holds)
  }

  // Results: what the log and the row say of the monitor, and of the others.

  lemma {:induction false} OthersTell(s: State, t: State, id: Id, more: seq<Entry>)
    requires AllTell(s) && id in s.rows && t.cfg == s.cfg && t.tracked == s.tracked && t.trackedFirst == s.trackedFirst
    requires id in t.rows && t.rows == s.rows[id := t.rows[id]]
    requires t.log == s.log + more && forall e :: e in more ==> e.id == id
    requires Tells(t, id)
    ensures AllTell(t)
  {
    forall i | i in t.rows ensures Tells(t, i) {
      if i != id {
        assert Tells(s, i);
        NoNews(s.log, more, i);
      }
    }
    forall i | 0 <= i < |t.log| ensures t.log[i].id in t.rows {
      if i < |s.log| { assert t.log[i] == s.log[i]; } else { assert t.log[i] == more[i - |s.log|]; }
    }
  }

  lemma {:induction false} ToldLog(log: seq<Entry>, id: Id, ok: bool, notice: Option<Entry>)
    requires notice.Some? ==> notice.value == ChecksStopped(id) || notice.value == ChecksResumed(id)
    ensures var told := log + Told(if ok then CheckOk(id) else CheckFailed(id), notice);
            && FailuresInARow(told, id) == (if ok then 0 else FailuresInARow(log, id) + 1)
            && Notices(told, id) == Notices(log, id) + (if notice.Some? then [notice.value] else [])
  {
    var check := if ok then CheckOk(id) else CheckFailed(id);
    LogAppend(log, check, id);
    if notice.Some? {
      LogAppend(log + [check], notice.value, id);
      assert log + Told(check, notice) == (log + [check]) + [notice.value];
    } else {
      assert log + Told(check, notice) == log + [check];
    }
  }

  lemma {:induction false} AlternateAppend(notices: seq<Entry>, e: Entry)
    requires Alternate(notices) && (e.ChecksStopped? <==> |notices| % 2 == 0)
    ensures Alternate(notices + [e])
  {}

  lemma {:induction false} SuccessRowTells(cfg: Config, tracked: bool, first: bool, r: Row, h: Hold, failures: nat,
                                           notices: seq<Entry>, at: int)
    requires RowTells(cfg, tracked, first, r, failures, notices) && h.seen.deadLetteredAt == r.deadLetteredAt
    ensures RowTells(cfg, tracked, first, Succeeded(r, h.seen, at), 0,
                     notices + if r.deadLetteredAt.Some? then [ChecksResumed(h.id)] else [])
  {
    if r.deadLetteredAt.Some? { AlternateAppend(notices, ChecksResumed(h.id)); }
    else { assert notices + [] == notices; }
  }

  lemma {:induction false} FailureRowTells(cfg: Config, tracked: bool, first: bool, r: Row, h: Hold, failures: nat,
                                           notices: seq<Entry>, at: int)
    requires RowTells(cfg, tracked, first, r, failures, notices) && (first ==> tracked)
    requires h.seen.deadLetteredAt == r.deadLetteredAt && h.seen.retryCount == r.retryCount
    ensures RowTells(cfg, tracked, first, Failed(cfg, r, h.seen, tracked, at), failures + 1,
                     notices + if Entering(cfg, h.seen, tracked) then [ChecksStopped(h.id)] else [])
  {
    if Entering(cfg, h.seen, tracked) { AlternateAppend(notices, ChecksStopped(h.id)); }
    else { assert notices + [] == notices; }
  }

  lemma {:induction false} SuccessTells(s: State, k: nat, at: int)
    requires AllTell(s) && Enabled(s, Succeed(k, at)) && HoldOk(s.rows, s.clock, s.holds[k])
    ensures AllTell(SucceededState(s, k, at))
  {
    var t, h := SucceededState(s, k, at), s.holds[k];
    assert Tells(s, h.id);
    ToldLog(s.log, h.id, true, ResumedNotice(h));
    SuccessRowTells(s.cfg, s.tracked, s.trackedFirst, s.rows[h.id], h, FailuresInARow(s.log, h.id),
                    Notices(s.log, h.id), at);
    OthersTell(s, t, h.id, Told(CheckOk(h.id), ResumedNotice(h)));
  }

  lemma {:induction false} FailureTells(s: State, k: nat, at: int)
    requires AllTell(s) && Enabled(s, Fail(k, at)) && HoldOk(s.rows, s.clock, s.holds[k])
    ensures AllTell(FailedState(s, k, at))
  {
    var t, h := FailedState(s, k, at), s.holds[k];
    assert Tells(s, h.id);
    ToldLog(s.log, h.id, false, StoppedNotice(s, h));
    FailureRowTells(s.cfg, s.tracked, s.trackedFirst, s.rows[h.id], h, FailuresInARow(s.log, h.id),
                    Notices(s.log, h.id), at);
    OthersTell(s, t, h.id, Told(CheckFailed(h.id), StoppedNotice(s, h)));
  }

  // Holds and times.

  /** The other holds stand as they were when one is done. */
  lemma {:induction false} OthersHold(rows: map<Id, Row>, after: map<Id, Row>, clock: int, at: int, holds: seq<Hold>,
                                      k: nat)
    requires HoldsOk(rows, clock, holds) && OneEach(clock, holds)
    requires k < |holds| && clock <= at < holds[k].until
    requires holds[k].id in after && after == rows[holds[k].id := after[holds[k].id]]
    ensures HoldsOk(after, at, Without(holds, k)) && OneEach(at, Without(holds, k))
  {
    var rest := Without(holds, k);
    forall i | 0 <= i < |rest| ensures HoldOk(after, at, rest[i]) {
      var j := if i < k then i else i + 1;
      assert rest[i] == holds[j] && HoldOk(rows, clock, holds[j]);
      assert clock < holds[j].until ==> holds[j].id != holds[k].id;
    }
  }

  lemma {:induction false} StillNear(cfg: Config, rows: map<Id, Row>, clock: int, at: int)
    requires AllNear(cfg, rows, clock) && clock <= at
    ensures AllNear(cfg, rows, at)
  {
    forall id | id in rows ensures Near(cfg, rows[id], at) { assert Near(cfg, rows[id], clock); }
  }

  lemma {:induction false} StillHeld(rows: map<Id, Row>, clock: int, at: int, holds: seq<Hold>)
    requires HoldsOk(rows, clock, holds) && OneEach(clock, holds) && clock <= at
    ensures HoldsOk(rows, at, holds) && OneEach(at, holds)
  {
    forall k | 0 <= k < |holds| ensures HoldOk(rows, at, holds[k]) { assert HoldOk(rows, clock, holds[k]); }
  }

  lemma {:induction false} ClaimedHolds(s: State, id: Id, at: int)
    requires Inv(s) && Enabled(s, Claim(id, at))
    ensures var t := ClaimedState(s, id, at); HoldsOk(t.rows, at, t.holds) && OneEach(at, t.holds)
  {
    var t := ClaimedState(s, id, at);
    LeaseIsPositive(s.cfg, s.rows[id]);
    StillHeld(s.rows, s.clock, at, s.holds);
    assert Tells(s, id);
    // The monitor was due, so no lease on it is still running.
    forall k | 0 <= k < |s.holds|
      ensures HoldOk(t.rows, at, s.holds[k]) && (s.holds[k].id == id ==> s.holds[k].until <= at)
    {
      assert HoldOk(s.rows, at, s.holds[k]);
    }
    forall k | 0 <= k < |t.holds| ensures HoldOk(t.rows, at, t.holds[k]) {
      if k < |s.holds| { assert t.holds[k] == s.holds[k]; }
    }
  }

  // Steps.

  lemma {:induction false} SuccessKeepsInv(s: State, k: nat, at: int)
    requires Inv(s) && Enabled(s, Succeed(k, at))
    ensures Inv(SucceededState(s, k, at))
  {
    var t, h := SucceededState(s, k, at), s.holds[k];
    assert HoldOk(s.rows, s.clock, h);
    SuccessTells(s, k, at);
    OthersHold(s.rows, t.rows, s.clock, at, s.holds, k);
    StillNear(s.cfg, s.rows, s.clock, at);
    assert Near(t.cfg, t.rows[h.id], at);
  }

  lemma {:induction false} FailureKeepsInv(s: State, k: nat, at: int)
    requires Inv(s) && Enabled(s, Fail(k, at))
    ensures Inv(FailedState(s, k, at))
  {
    var t, h := FailedState(s, k, at), s.holds[k];
    assert HoldOk(s.rows, s.clock, h);
    FailureTells(s, k, at);
    OthersHold(s.rows, t.rows, s.clock, at, s.holds, k);
    StillNear(s.cfg, s.rows, s.clock, at);
    assert Near(t.cfg, t.rows[h.id], at);
  }

  /** Whoever changes a schedule alone, the log is as it was and so is what the rows tell of it. */
  lemma {:induction false} RowsStillTell(s: State, t: State)
    requires AllTell(s) && t.cfg == s.cfg && t.log == s.log
    requires t.trackedFirst == s.trackedFirst && (s.tracked ==> t.tracked)
    requires t.rows.Keys == s.rows.Keys
    requires forall id :: id in s.rows ==>
               t.rows[id].retryCount == s.rows[id].retryCount && t.rows[id].deadLetteredAt == s.rows[id].deadLetteredAt
    ensures AllTell(t)
  {
    forall id | id in t.rows ensures Tells(t, id) { assert Tells(s, id); }
  }

  lemma {:induction false} ClaimKeepsInv(s: State, id: Id, at: int)
    requires Inv(s) && Enabled(s, Claim(id, at))
    ensures Inv(ClaimedState(s, id, at))
  {
    var t := ClaimedState(s, id, at);
    ClaimedHolds(s, id, at);
    StillNear(s.cfg, s.rows, s.clock, at);
    assert Near(t.cfg, t.rows[id], at);
    RowsStillTell(s, t);
  }

  /** A schedule these steps produced is never overlong. */
  lemma {:induction false} NearIsNotOverlong(cfg: Config, r: Row, clock: int, at: int)
    requires Near(cfg, r, clock) && clock <= at
    ensures !Overlong(cfg, r, at)
  {
    LeaseIsPositive(cfg, r);
  }

  lemma {:induction false} ReleaseChangesNothing(s: State, at: int)
    requires Inv(s) && s.clock <= at
    ensures ReleasedState(s, at) == s.(clock := at)
  {
    forall id | id in s.rows ensures Released(s.cfg, s.rows[id], at) == s.rows[id] {
      NearIsNotOverlong(s.cfg, s.rows[id], s.clock, at);
    }
    assert ReleasedState(s, at).rows == s.rows;
  }

  lemma {:induction false} TimeKeepsInv(s: State, at: int)
    requires Inv(s) && s.clock <= at
    ensures Inv(s.(clock := at))
  {
    StillNear(s.cfg, s.rows, s.clock, at);
    StillHeld(s.rows, s.clock, at, s.holds);
    RowsStillTell(s, s.(clock := at));
  }

  lemma {:induction false} CreateTells(s: State, id: Id, r: Row)
    requires AllTell(s) && id !in s.rows && r.retryCount == 0 && r.deadLetteredAt.None?
    ensures AllTell(s.(rows := s.rows[id := r]))
  {
    var t := s.(rows := s.rows[id := r]);
    forall i | i in t.rows ensures Tells(t, i) {
      if i == id {
        forall e | e in s.log ensures e.id != id { var j :| 0 <= j < |s.log| && s.log[j] == e; }
        NoNews([], s.log, id);
        assert [] + s.log == s.log;
      } else { assert Tells(s, i); }
    }
  }

  lemma {:induction false} CreateKeepsInv(s: State, id: Id, interval: nat, timeout: nat, retries: nat, at: int)
    requires Inv(s) && Enabled(s, Create(id, interval, timeout, retries, at))
    ensures Inv(Next(s, Create(id, interval, timeout, retries, at)))
  {
    var r := Row(true, at, None, 0, None, interval, timeout, retries);
    TimeKeepsInv(s, at);
    CreateTells(s, id, r);
    RowsStillTell(s.(rows := s.rows[id := r]), s.(rows := s.rows[id := r], clock := at));
    forall k | 0 <= k < |s.holds| ensures HoldOk(s.rows[id := r], at, s.holds[k]) {
      assert HoldOk(s.rows, at, s.holds[k]);
    }
  }

  lemma {:induction false} PauseKeepsInv(s: State, id: Id)
    requires Inv(s) && id in s.rows
    ensures Inv(Next(s, Pause(id)))
  {
    var t := Next(s, Pause(id));
    RowsStillTell(s, t);
    assert Near(s.cfg, s.rows[id], s.clock);
    forall k | 0 <= k < |s.holds| ensures HoldOk(t.rows, t.clock, s.holds[k]) {
      assert HoldOk(s.rows, s.clock, s.holds[k]);
    }
  }

  lemma {:induction false} StepKeepsInv(s: State, step: Step)
    requires Inv(s)
    ensures Inv(Next(s, step))
  {
    if Enabled(s, step) {
      match step {
        case Claim(id, at) => ClaimKeepsInv(s, id, at);
        case Succeed(k, at) => SuccessKeepsInv(s, k, at);
        case Fail(k, at) => FailureKeepsInv(s, k, at);
        case ReleaseOverlong(at) => ReleaseChangesNothing(s, at); TimeKeepsInv(s, at);
        case Create(id, interval, timeout, retries, at) => CreateKeepsInv(s, id, interval, timeout, retries, at);
        case Pause(id) => PauseKeepsInv(s, id);
        case Migrate => RowsStillTell(s, Next(s, step));
      }
    }
  }

  lemma {:induction false} RunsAreSound(cfg: Config, tracked: bool, steps: seq<Step>)
    ensures Inv(Run(cfg, tracked, steps))
    ensures Run(cfg, tracked, steps).cfg == cfg && Run(cfg, tracked, steps).trackedFirst == tracked
  {
    if steps != [] {
      RunsAreSound(cfg, tracked, steps[..|steps| - 1]);
      StepKeepsInv(Run(cfg, tracked, steps[..|steps| - 1]), steps[|steps| - 1]);
    }
  }

  // ---------------------------------------------------------------------------------------------
  // What holds over every run
  // ---------------------------------------------------------------------------------------------

  /** No two workers hold one monitor while their leases run. */
  lemma {:induction false} OneWorkerAtATime(cfg: Config, tracked: bool, steps: seq<Step>, i: nat, j: nat)
    requires var s := Run(cfg, tracked, steps);
             i < j < |s.holds| && s.clock < s.holds[i].until && s.clock < s.holds[j].until
    ensures Run(cfg, tracked, steps).holds[i].id != Run(cfg, tracked, steps).holds[j].id
  {
    RunsAreSound(cfg, tracked, steps);
  }

  /** A monitor whose worker died can be claimed from the moment its lease ends, and not before. */
  lemma {:induction false} AbandonedChecksWaitOutTheLease(cfg: Config, tracked: bool, steps: seq<Step>, k: nat,
                                                          now: int)
    requires var s := Run(cfg, tracked, steps);
             k < |s.holds| && s.clock < s.holds[k].until && s.holds[k].id in s.rows && s.rows[s.holds[k].id].active
    ensures var s := Run(cfg, tracked, steps);
            Due(s.rows[s.holds[k].id], now) <==> s.holds[k].until <= now
  {
    RunsAreSound(cfg, tracked, steps);
    var s := Run(cfg, tracked, steps);
    assert HoldOk(s.rows, s.clock, s.holds[k]);
  }

  /** Retries never stop: whatever happened, an active monitor is due within its interval, its lease or the cap. */
  lemma {:induction false} NoMonitorIsForgotten(cfg: Config, tracked: bool, steps: seq<Step>, id: Id, now: int)
    requires id in Run(cfg, tracked, steps).rows && Run(cfg, tracked, steps).rows[id].active
    requires var s := Run(cfg, tracked, steps);
             now >= s.clock + Max(Max(1000 * s.rows[id].intervalSeconds, cfg.maxBackoff), Lease(cfg, s.rows[id]))
    ensures Due(Run(cfg, tracked, steps).rows[id], now)
  {
    RunsAreSound(cfg, tracked, steps);
    assert Near(cfg, Run(cfg, tracked, steps).rows[id], Run(cfg, tracked, steps).clock);
  }

  /**
   * The customer is told that checks stopped, then that they resumed, in turn and starting with
   * stopped, and the row is in dead letter exactly while the last word is stopped.
   */
  lemma {:induction false} StopsAndResumesAlternate(cfg: Config, tracked: bool, steps: seq<Step>, id: Id)
    requires id in Run(cfg, tracked, steps).rows
    ensures var s := Run(cfg, tracked, steps);
            var notices := Notices(s.log, id);
            && (forall i :: 0 <= i < |notices| ==> (notices[i] == ChecksStopped(id) <==> i % 2 == 0))
            && (s.rows[id].deadLetteredAt.Some? <==> notices != [] && notices[|notices| - 1] == ChecksStopped(id))
  {
    RunsAreSound(cfg, tracked, steps);
    var s := Run(cfg, tracked, steps);
    assert Tells(s, id);
    NoticesAreOwn(s.log, id);
    var notices := Notices(s.log, id);
    forall i | 0 <= i < |notices| ensures notices[i] == ChecksStopped(id) <==> i % 2 == 0 {
      assert notices[i] in notices;
    }
  }

  lemma {:induction false} NoticesAreOwn(log: seq<Entry>, id: Id)
    ensures forall e :: e in Notices(log, id) ==> e == ChecksStopped(id) || e == ChecksResumed(id)
  {
    if log != [] { NoticesAreOwn(log[..|log| - 1], id); }
  }

  /** A monitor is in dead letter exactly when its checks failed that many times in a row. */
  lemma {:induction false} DeadLetterCountsFailures(cfg: Config, steps: seq<Step>, id: Id)
    requires cfg.maxAttempts > 0 && id in Run(cfg, true, steps).rows
    ensures var s := Run(cfg, true, steps);
            s.rows[id].deadLetteredAt.Some? <==> FailuresInARow(s.log, id) >= cfg.maxAttempts
  {
    RunsAreSound(cfg, true, steps);
    assert Tells(Run(cfg, true, steps), id);
  }

  /** The sweep for overlong schedules never touches one that these steps produced. */
  lemma {:induction false} SweepLeavesOwnSchedules(cfg: Config, tracked: bool, steps: seq<Step>, at: int)
    requires Run(cfg, tracked, steps).clock <= at
    ensures Next(Run(cfg, tracked, steps), ReleaseOverlong(at)).rows == Run(cfg, tracked, steps).rows
  {
    RunsAreSound(cfg, tracked, steps);
    ReleaseChangesNothing(Run(cfg, tracked, steps), at);
  }

  /** The claims under way saw the intervals of their monitors. Of the rest of a state nothing is known. */
  ghost predicate ClaimsMatch(s: State) {
    forall k :: 0 <= k < |s.holds| ==>
      s.holds[k].id in s.rows && s.rows[s.holds[k].id].intervalSeconds == s.holds[k].seen.intervalSeconds
  }

  ghost predicate Healed(s: State) {
    forall id :: id in s.rows ==> !Overlong(s.cfg, s.rows[id], s.clock)
  }

  lemma {:induction false} ResultStaysInBounds(cfg: Config, r: Row, seen: Row, tracked: bool, at: int)
    requires seen.intervalSeconds == r.intervalSeconds
    ensures !Overlong(cfg, Succeeded(r, seen, at), at) && !Overlong(cfg, Failed(cfg, r, seen, tracked, at), at)
  {}

  lemma {:induction false} ClaimStaysInBounds(cfg: Config, r: Row, at: int)
    requires Due(r, at)
    ensures !Overlong(cfg, Claimed(cfg, r, at), at)
  {
    LeaseIsPositive(cfg, r);
  }

  lemma {:induction false} StepKeepsHealed(s: State, step: Step)
    requires ClaimsMatch(s) && (Healed(s) || (step.ReleaseOverlong? && s.clock <= step.at))
    ensures ClaimsMatch(Next(s, step)) && Healed(Next(s, step)) && Next(s, step).cfg == s.cfg
  {
    var t := Next(s, step);
    if Enabled(s, step) {
      match step {
        case Claim(id, at) => ClaimStaysInBounds(s.cfg, s.rows[id], at);
        case Succeed(k, at) => ResultStaysInBounds(s.cfg, s.rows[s.holds[k].id], s.holds[k].seen, s.tracked, at);
        case Fail(k, at) => ResultStaysInBounds(s.cfg, s.rows[s.holds[k].id], s.holds[k].seen, s.tracked, at);
        case _ =>
      }
      assert step.ReleaseOverlong? || forall id :: id in s.rows ==> !Overlong(s.cfg, s.rows[id], s.clock);
    }
  }

  lemma {:induction false} HealedStays(s: State, more: seq<Step>)
    requires ClaimsMatch(s) && Healed(s)
    ensures ClaimsMatch(After(s, more)) && Healed(After(s, more)) && After(s, more).cfg == s.cfg
  {
    if more != [] {
      HealedStays(s, more[..|more| - 1]);
      StepKeepsHealed(After(s, more[..|more| - 1]), more[|more| - 1]);
    }
  }

  /**
   * Whatever wrote the schedules before, after one sweep for overlong ones and any steps from there, every
   * active monitor falls due by `Furthest` at the latest.
   */
  lemma {:induction false} SweepHealsSchedules(s: State, at: int, more: seq<Step>, id: Id, now: int)
    requires ClaimsMatch(s) && s.clock <= at
    requires var t := After(Next(s, ReleaseOverlong(at)), more);
             id in t.rows && t.rows[id].active && now >= t.clock + Furthest(s.cfg, t.rows[id])
    ensures Due(After(Next(s, ReleaseOverlong(at)), more).rows[id], now)
  {
    StepKeepsHealed(s, ReleaseOverlong(at));
    HealedStays(Next(s, ReleaseOverlong(at)), more);
    assert !Overlong(s.cfg, After(Next(s, ReleaseOverlong(at)), more).rows[id],
                     After(Next(s, ReleaseOverlong(at)), more).clock);
  }

  // ---------------------------------------------------------------------------------------------
  // What each step records, told by the rows alone
  // ---------------------------------------------------------------------------------------------

  /** The wait doubles with each failure in a row, from the initial one up to the cap. */
  lemma {:induction false} WaitsDouble(cfg: Config, n: nat)
    requires n > 0
    ensures Backoff(cfg, 1) == Min(cfg.initialBackoff, cfg.maxBackoff)
    ensures Backoff(cfg, n + 1) == Min(2 * Backoff(cfg, n), cfg.maxBackoff)
  {
    assert Pow2(0) == 1;
    assert Pow2(n) == 2 * Pow2(n - 1);
    assert cfg.initialBackoff * Pow2(n) == 2 * (cfg.initialBackoff * Pow2(n - 1));
  }

  /** A new monitor is due at once, one that is paused keeps its columns, and a migration tells no row apart. */
  lemma {:induction false} MonitorsComeAndGo(s: State, id: Id, interval: nat, timeout: nat, retries: nat, at: int)
    ensures id !in s.rows && s.clock <= at ==>
              Next(s, Create(id, interval, timeout, retries, at))
              == s.(rows := s.rows[id := Row(true, at, None, 0, None, interval, timeout, retries)], clock := at)
    ensures id in s.rows ==> Next(s, Pause(id)) == s.(rows := s.rows[id := s.rows[id].(active := false)])
    ensures Next(s, Migrate) == s.(tracked := true)
  {}

  /**
   * A claim needs an active monitor whose next check and whose wait are past. It holds the monitor for all its
   * attempts at their timeouts, the pause after each in whole seconds, and half a minute. The worker sees no dead
   * letter while the column is missing.
   */
  lemma {:induction false} ClaimsHoldTheMonitor(s: State, id: Id, at: int)
    requires id in s.rows && s.clock <= at
    ensures var t, r := Next(s, Claim(id, at)), s.rows[id];
            var pause := if s.cfg.retryDelay % 1000 == 0 then s.cfg.retryDelay / 1000 else s.cfg.retryDelay / 1000 + 1;
            var until := at + 1000 * (30 + (r.timeoutSeconds + pause) * (1 + r.retries));
            if r.active && r.nextCheckAt <= at && (r.backoffUntil == None || r.backoffUntil.value <= at) then
              && t.rows == s.rows[id := r.(backoffUntil := Some(until))]
              && |t.holds| == |s.holds| + 1 && t.holds[..|s.holds|] == s.holds
              && t.holds[|s.holds|].id == id && t.holds[|s.holds|].until == until
              && t.holds[|s.holds|].seen
                 == (if s.tracked then t.rows[id] else t.rows[id].(deadLetteredAt := None))
              && t.clock == at && t.log == s.log && t.tracked == s.tracked
            else t == s
  {}

  /**
   * A check that succeeded is due again an interval later, waits for nothing and has no failures. What the claim saw
   * in dead letter leaves it, and the customer hears of that.
   */
  lemma {:induction false} SuccessesReschedule(s: State, k: nat, at: int)
    requires k < |s.holds| && s.clock <= at < s.holds[k].until && s.holds[k].id in s.rows
    ensures var t, h := Next(s, Succeed(k, at)), s.holds[k];
            var was := s.rows[h.id];
            && t.rows.Keys == s.rows.Keys && t.holds == Without(s.holds, k) && t.clock == at
            && (forall id :: id in s.rows && id != h.id ==> t.rows[id] == s.rows[id])
            && t.rows[h.id]
               == Row(was.active, at + 1000 * h.seen.intervalSeconds, None, 0,
                      if h.seen.deadLetteredAt == None then was.deadLetteredAt else None,
                      was.intervalSeconds, was.timeoutSeconds, was.retries)
            && t.log == s.log + if h.seen.deadLetteredAt == None then [CheckOk(h.id)]
                                else [CheckOk(h.id), ChecksResumed(h.id)]
  {}

  /**
   * A check that failed counts one failure more than the claim saw and waits for that many. With the last attempt
   * it enters dead letter, unless the claim saw it there, and the customer hears of that.
   */
  lemma {:induction false} FailuresBackOff(s: State, k: nat, at: int)
    requires k < |s.holds| && s.clock <= at < s.holds[k].until && s.holds[k].id in s.rows
    ensures var t, h := Next(s, Fail(k, at)), s.holds[k];
            var was, failures := s.rows[h.id], s.holds[k].seen.retryCount + 1;
            var due := at + Backoff(s.cfg, failures);
            var stops := failures >= s.cfg.maxAttempts && h.seen.deadLetteredAt == None && s.tracked;
            && t.rows.Keys == s.rows.Keys && t.holds == Without(s.holds, k) && t.clock == at
            && (forall id :: id in s.rows && id != h.id ==> t.rows[id] == s.rows[id])
            && t.rows[h.id]
               == Row(was.active, due, Some(due), failures, if stops then Some(at) else was.deadLetteredAt,
                      was.intervalSeconds, was.timeoutSeconds, was.retries)
            && t.log == s.log + if stops then [CheckFailed(h.id), ChecksStopped(h.id)] else [CheckFailed(h.id)]
  {}

  /**
   * The sweep makes an active monitor due at once exactly when its next check or its wait is further off than its
   * interval or the cap, in whole seconds, and its lease. It touches no other.
   */
  lemma {:induction false} SweepReleasesExactlyWhen(s: State, at: int, id: Id)
    requires s.clock <= at && id in s.rows
    ensures var t, r := Next(s, ReleaseOverlong(at)), s.rows[id];
            var lease := 1000 * LeaseSeconds(s.cfg, r.timeoutSeconds, r.retries);
            var cap := 1000 * (if s.cfg.maxBackoff % 1000 == 0 then s.cfg.maxBackoff / 1000
                               else s.cfg.maxBackoff / 1000 + 1);
            var furthest := at + lease + Max(1000 * r.intervalSeconds, cap);
            && id in t.rows
            && t.rows[id]
               == if r.active && (r.nextCheckAt > furthest || (r.backoffUntil.Some? && r.backoffUntil.value > furthest))
                  then r.(nextCheckAt := at, backoffUntil := None) else r
  {
    var r := s.rows[id];
    assert 1000 * Max(r.intervalSeconds, Seconds(s.cfg.maxBackoff))
        == Max(1000 * r.intervalSeconds, 1000 * Seconds(s.cfg.maxBackoff));
  }

  // ---------------------------------------------------------------------------------------------
  // The scheduler
  // ---------------------------------------------------------------------------------------------

  /** What one poll may claim: the due monitors that no other transaction has locked. */
  function DueNow(rows: map<Id, Row>, now: int, locked: set<Id>): set<Id> {
    set id | id in rows && id !in locked && Due(rows[id], now)
  }

  predicate EarliestIn(rows: map<Id, Row>, left: set<Id>, id: Id) {
    && id in left
    && forall j :: j in left && j in rows && id in rows ==> rows[id].nextCheckAt <= rows[j].nextCheckAt
  }

  lemma {:induction false} SomeIsEarliest(rows: map<Id, Row>, left: set<Id>)
    requires left != {} && left <= rows.Keys
    ensures exists id :: EarliestIn(rows, left, id)
    decreases |left|
  {
    var any :| any in left;
    var others := left - {any};
    if others == {} {
      assert left == {any};
      assert EarliestIn(rows, left, any);
    } else {
      SomeIsEarliest(rows, others);
      var id :| EarliestIn(rows, others, id);
      assert EarliestIn(rows, left, if rows[id].nextCheckAt <= rows[any].nextCheckAt then id else any);
    }
  }

  /** A poll so far: `ids` were picked from `due` in the order their checks came due, and `left` were not. */
  ghost predicate Picked(rows: map<Id, Row>, due: set<Id>, left: set<Id>, ids: seq<Id>) {
    && left <= due <= rows.Keys && |ids| + |left| == |due|
    && (forall i :: 0 <= i < |ids| ==> ids[i] in due && ids[i] !in left)
    && (forall j :: j in due && j !in left ==> j in ids)
    && (forall i, j :: 0 <= i < j < |ids| ==> ids[i] != ids[j])
    && (forall i, j :: i in ids && j in left && i in rows && j in rows ==> rows[i].nextCheckAt <= rows[j].nextCheckAt)
  }

  lemma {:induction false} NonePicked(rows: map<Id, Row>, due: set<Id>)
    requires due <= rows.Keys
    ensures Picked(rows, due, due, [])
  {}

  lemma {:induction false} PickedOneMore(rows: map<Id, Row>, due: set<Id>, left: set<Id>, ids: seq<Id>, id: Id)
    requires Picked(rows, due, left, ids) && EarliestIn(rows, left, id)
    ensures Picked(rows, due, left - {id}, ids + [id]) && |left - {id}| == |left| - 1
  {
    forall j | j in due && j !in left - {id} ensures j in ids + [id] {
      if j != id { assert j in ids; }
    }
  }

  function ClaimEach(s: State, ids: seq<Id>, now: int): State {
    if ids == [] then s else Next(ClaimEach(s, ids[..|ids| - 1], now), Claim(ids[|ids| - 1], now))
  }

  lemma {:induction false} ClaimEachOneMore(s: State, ids: seq<Id>, id: Id, now: int)
    ensures ClaimEach(s, ids + [id], now) == Next(ClaimEach(s, ids, now), Claim(id, now))
  {
    assert (ids + [id])[..|ids|] == ids;
  }

  /** The monitors left to claim are due, and as they were at the start of the poll. */
  ghost predicate StillDue(rows: map<Id, Row>, start: map<Id, Row>, left: set<Id>, now: int) {
    && left <= rows.Keys && left <= start.Keys
    && forall j :: j in left && j in rows && j in start ==> rows[j] == start[j] && Due(rows[j], now)
  }

  /** A poll under way: from `start`, claiming `ids` came to `s`, with `claimed` as the workers' new holds. */
  ghost predicate Polled(start: State, now: int, due: set<Id>, left: set<Id>, ids: seq<Id>, claimed: seq<Hold>,
                         s: State)
  {
    && |ids| == |claimed| && |ids| + |left| == |due|
    && Picked(start.rows, due, left, ids)
    && StillDue(s.rows, start.rows, left, now)
    && s == ClaimEach(start, ids, now)
    && s.holds == start.holds + claimed && s.trackedFirst == start.trackedFirst
    && s.clock == (if ids == [] then start.clock else now) <= now
  }

  lemma {:induction false} PollStarts(start: State, now: int, locked: set<Id>)
    requires start.clock <= now
    ensures var due := DueNow(start.rows, now, locked); Polled(start, now, due, due, [], [], start)
  {
    NonePicked(start.rows, DueNow(start.rows, now, locked));
    assert start.holds + [] == start.holds;
  }

  lemma {:induction false} PollGoesOn(start: State, now: int, due: set<Id>, left: set<Id>, ids: seq<Id>,
                                      claimed: seq<Hold>, s: State, id: Id, hold: Hold)
    requires Polled(start, now, due, left, ids, claimed, s) && EarliestIn(start.rows, left, id)
    requires var t := Next(s, Claim(id, now));
             t.holds == s.holds + [hold] && t.clock == now && StillDue(t.rows, start.rows, left - {id}, now)
    ensures Polled(start, now, due, left - {id}, ids + [id], claimed + [hold], Next(s, Claim(id, now)))
  {
    PickedOneMore(start.rows, due, left, ids, id);
    ClaimEachOneMore(start, ids, id, now);
    assert start.holds + claimed + [hold] == start.holds + (claimed + [hold]);
  }

  /** An active monitor that no other transaction has locked, with its check and its wait past. */
  ghost predicate Ripe(rows: map<Id, Row>, now: int, locked: set<Id>, id: Id) {
    && id in rows && id !in locked && rows[id].active && rows[id].nextCheckAt <= now
    && (rows[id].backoffUntil == None || rows[id].backoffUntil.value <= now)
  }

  /** A poll gets as many ripe monitors as asked or as there are, each once, and leaves none due before one it got. */
  ghost predicate Got(rows: map<Id, Row>, now: int, locked: set<Id>, limit: nat, ids: seq<Id>) {
    && |ids| <= limit
    && (forall i, j :: 0 <= i < j < |ids| ==> ids[i] != ids[j])
    && (forall id :: id in ids ==> Ripe(rows, now, locked, id))
    && (|ids| < limit ==> forall id :: Ripe(rows, now, locked, id) ==> id in ids)
    && (forall i, j :: i in ids && j !in ids && Ripe(rows, now, locked, j) && i in rows ==>
          rows[i].nextCheckAt <= rows[j].nextCheckAt)
  }

  lemma {:induction false} PickedIsGot(rows: map<Id, Row>, now: int, locked: set<Id>, limit: nat, left: set<Id>,
                                       ids: seq<Id>)
    requires Picked(rows, DueNow(rows, now, locked), left, ids)
    requires |ids| <= limit && (|ids| < limit ==> left == {})
    ensures Got(rows, now, locked, limit, ids)
  {
    forall id ensures Ripe(rows, now, locked, id) <==> id in DueNow(rows, now, locked) {}
    forall id | id in ids ensures id in DueNow(rows, now, locked) {
      var i :| 0 <= i < |ids| && ids[i] == id;
    }
  }

  class Scheduler {
    const cfg: Config
    var rows: map<Id, Row>
    var log: seq<Entry>
    var tracked: bool

    constructor (cfg: Config, tracked: bool)
      ensures this.cfg == cfg && rows == map[] && log == [] && this.tracked == tracked
    {
      this.cfg, rows, log, this.tracked := cfg, map[], [], tracked;
    }

    /** The rows and the log, with the claims that workers hold. */
    function View(holds: seq<Hold>, trackedFirst: bool, clock: int): State
      reads this
    {
      State(cfg, rows, holds, log, tracked, trackedFirst, clock)
    }

    /** Claims the monitor of `left` that was due first. */
    method ClaimEarliest(left: set<Id>, now: int, ghost start: map<Id, Row>, ghost rest: State)
      returns (id: Id, hold: Hold)
      requires left != {} && StillDue(rows, start, left, now) && rest.clock <= now
      modifies this`rows
      ensures EarliestIn(start, left, id) && StillDue(rows, start, left - {id}, now)
      ensures View(rest.holds + [hold], rest.trackedFirst, now)
              == Next(old(View(rest.holds, rest.trackedFirst, rest.clock)), Claim(id, now))
    {
      SomeIsEarliest(rows, left);
      id :| id in left && EarliestIn(rows, left, id);
      var row := rows[id].(backoffUntil := Some(now + Lease(cfg, rows[id])));
      hold := Hold(id, Seen(row, tracked), now + Lease(cfg, row));
      rows := rows[id := row];
    }

    /** One worker's poll. `ids` are the monitors it got, and `skipped` the ones it found due and left. */
    method ClaimDue(limit: nat, now: int, locked: set<Id>, ghost rest: State)
      returns (claimed: seq<Hold>, ghost ids: seq<Id>, ghost skipped: set<Id>)
      requires rest.clock <= now
      modifies this`rows
      ensures |ids| == |claimed| == Min(limit, |DueNow(old(rows), now, locked)|)
      ensures Picked(old(rows), DueNow(old(rows), now, locked), skipped, ids)
      ensures Got(old(rows), now, locked, limit, ids)
      ensures View(rest.holds + claimed, rest.trackedFirst, if ids == [] then rest.clock else now)
              == ClaimEach(old(View(rest.holds, rest.trackedFirst, rest.clock)), ids, now)
    {
      ghost var start := View(rest.holds, rest.trackedFirst, rest.clock);
      ghost var s := start;
      var left := DueNow(rows, now, locked);
      ghost var due := left;
      claimed, ids := [], [];
      PollStarts(start, now, locked);
      while |claimed| < limit && left != {}
        invariant |claimed| <= limit
        invariant Polled(start, now, due, left, ids, claimed, s)
        invariant s == View(s.holds, s.trackedFirst, s.clock)
        decreases |left|
      {
        var id, hold := ClaimEarliest(left, now, start.rows, s);
        PollGoesOn(start, now, due, left, ids, claimed, s, id, hold);
        s := Next(s, Claim(id, now));
        claimed, ids, left := claimed + [hold], ids + [id], left - {id};
      }
      skipped := left;
      PickedIsGot(start.rows, now, locked, limit, left, ids);
    }

    /** Records an answer. `rest` holds the claim at `k`. */
    method RecordCheckSuccess(h: Hold, now: int, ghost rest: State, ghost k: nat)
      requires h.id in rows && k < |rest.holds| && rest.holds[k] == h
      modifies this`rows, this`log
      ensures View(Without(rest.holds, k), rest.trackedFirst, now)
              == SucceededState(old(View(rest.holds, rest.trackedFirst, rest.clock)), k, now)
    {
      var row := rows[h.id].(nextCheckAt := now + 1000 * h.seen.intervalSeconds, retryCount := 0, backoffUntil := None);
      log := log + [CheckOk(h.id)];
      if h.seen.deadLetteredAt.Some? {
        row := row.(deadLetteredAt := None);
        log := log + [ChecksResumed(h.id)];
      }
      rows := rows[h.id := row];
    }

    /** Records that the check could not be made. `rest` holds the claim at `k`. */
    method RecordCheckFailure(h: Hold, now: int, ghost rest: State, ghost k: nat)
      requires h.id in rows && k < |rest.holds| && rest.holds[k] == h
      modifies this`rows, this`log
      ensures View(Without(rest.holds, k), rest.trackedFirst, now)
              == FailedState(old(View(rest.holds, rest.trackedFirst, rest.clock)), k, now)
    {
      var retryCount := h.seen.retryCount + 1;
      var due := now + Min(cfg.initialBackoff * Pow2(retryCount - 1), cfg.maxBackoff);
      var row := rows[h.id].(retryCount := retryCount, backoffUntil := Some(due), nextCheckAt := due);
      log := log + [CheckFailed(h.id)];
      if retryCount >= cfg.maxAttempts && h.seen.deadLetteredAt.None? && tracked {
        row := row.(deadLetteredAt := Some(now));
        log := log + [ChecksStopped(h.id)];
      }
      rows := rows[h.id := row];
    }

    method ReleaseOverlongSchedules(now: int, ghost rest: State) returns (released: set<Id>)
      modifies this`rows
      ensures View(rest.holds, rest.trackedFirst, now)
              == ReleasedState(old(View(rest.holds, rest.trackedFirst, rest.clock)), now)
      ensures forall id :: id in released <==> id in old(rows) && Overlong(cfg, old(rows)[id], now)
    {
      released := set id | id in rows && Overlong(cfg, rows[id], now);
      rows := map id | id in rows ::
        if id in released then rows[id].(nextCheckAt := now, backoffUntil := None) else rows[id];
    }
  }
}
