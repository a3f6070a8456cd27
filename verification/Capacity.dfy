/**
 * Which monitors a capacity pause takes and a raise gives back
 * (src/lib/server/services/capacity.service.ts, src/lib/server/services/subscription.service.ts).
 */
module Capacity {
  import opened Prelude

  /** A monitor of one organization. One the organization paused itself has no `capacityPausedAt`. */
  datatype Monitor = Monitor(createdAt: int, id: nat, active: bool, capacityPausedAt: Option<int>)

  /**
   * No monitor is both active and paused. Lists of an organization's monitors run from the oldest to the
   * newest, by creation time and then id: the order every query here uses, or its reverse.
   */
  ghost predicate Exclusive(ms: seq<Monitor>) {
    forall i :: 0 <= i < |ms| ==> !(ms[i].active && ms[i].capacityPausedAt.Some?)
  }

  function ActiveCount(ms: seq<Monitor>): nat {
    if ms == [] then 0 else ActiveCount(ms[..|ms| - 1]) + if ms[|ms| - 1].active then 1 else 0
  }

  function PausedCount(ms: seq<Monitor>): nat {
    if ms == [] then 0
    else PausedCount(ms[..|ms| - 1]) + if ms[|ms| - 1].capacityPausedAt.Some? then 1 else 0
  }

  /** Pauses the newest `n` active monitors. */
  function PauseNewest(ms: seq<Monitor>, n: nat, now: int): seq<Monitor> {
    if ms == [] || n == 0 then ms
    else
      var m, rest := ms[|ms| - 1], ms[..|ms| - 1];
      if m.active then PauseNewest(rest, n - 1, now) + [m.(active := false, capacityPausedAt := Some(now))]
      else PauseNewest(rest, n, now) + [m]
  }

  /** Resumes the oldest `n` monitors that capacity paused. */
  function ResumeOldest(ms: seq<Monitor>, n: nat): seq<Monitor> {
    if ms == [] || n == 0 then ms
    else
      var m, rest := ms[0], ms[1..];
      if m.capacityPausedAt.Some? then [m.(active := true, capacityPausedAt := None)] + ResumeOldest(rest, n - 1)
      else [m] + ResumeOldest(rest, n)
  }

  /** A pause at a ceiling takes the monitors above it. */
  function PauseAt(ms: seq<Monitor>, ceiling: nat, now: int): seq<Monitor> {
    if ActiveCount(ms) <= ceiling then ms else PauseNewest(ms, ActiveCount(ms) - ceiling, now)
  }

  /** How many monitors a raise from `before` to `after` may resume. No ceiling is None. */
  function Room(ms: seq<Monitor>, before: Option<nat>, after: Option<nat>): (n: nat)
    ensures n > 0 ==> before.Some? && (after.Some? ==> before.value < after.value)
  {
    if before.None? || (after.Some? && after.value <= before.value) then 0
    else if after.None? then |ms|
    else
      var take := Min(after.value - before.value, after.value - ActiveCount(ms));
      if take <= 0 then 0 else take
  }

  function Raise(ms: seq<Monitor>, before: Option<nat>, after: Option<nat>): seq<Monitor> {
    ResumeOldest(ms, Room(ms, before, after))
  }

  // ---------------------------------------------------------------------------------------------
  // Pausing and resuming leave one shape
  // ---------------------------------------------------------------------------------------------

  /** Every active monitor is older than every capacity-paused one. */
  ghost predicate OldestActive(ms: seq<Monitor>) {
    forall i, j :: 0 <= i < j < |ms| ==> !(ms[i].capacityPausedAt.Some? && ms[j].active)
  }

  /** Active, or paused by capacity rather than by its owner. */
  predicate InPool(m: Monitor) {
    m.active || m.capacityPausedAt.Some?
  }

  ghost predicate SameActive(a: seq<Monitor>, b: seq<Monitor>) {
    |a| == |b| && forall i :: 0 <= i < |a| ==> a[i].active == b[i].active
  }

  /** The same monitors, of which the same ones are active or capacity-paused. */
  ghost predicate SamePool(a: seq<Monitor>, b: seq<Monitor>) {
    && |a| == |b|
    && forall i :: 0 <= i < |a| ==>
         a[i].createdAt == b[i].createdAt && a[i].id == b[i].id && InPool(a[i]) == InPool(b[i])
  }

  lemma {:induction false} CountsSplit(a: seq<Monitor>, b: seq<Monitor>)
    ensures ActiveCount(a + b) == ActiveCount(a) + ActiveCount(b)
    ensures PausedCount(a + b) == PausedCount(a) + PausedCount(b)
  {
    if b == [] {
      assert a + b == a;
    } else {
      assert (a + b)[..|a + b| - 1] == a + b[..|b| - 1];
      CountsSplit(a, b[..|b| - 1]);
    }
  }

  lemma {:induction false} CountsAreBounded(ms: seq<Monitor>)
    ensures ActiveCount(ms) <= |ms| && PausedCount(ms) <= |ms|
    ensures ActiveCount(ms) == 0 <==> forall i :: 0 <= i < |ms| ==> !ms[i].active
    ensures PausedCount(ms) == 0 <==> forall i :: 0 <= i < |ms| ==> ms[i].capacityPausedAt.None?
  {
    if ms != [] {
      CountsAreBounded(ms[..|ms| - 1]);
    }
  }

  lemma {:induction false} PauseCounts(ms: seq<Monitor>, n: nat, now: int)
    requires Exclusive(ms)
    ensures var r := PauseNewest(ms, n, now);
            && ActiveCount(r) == ActiveCount(ms) - Min(n, ActiveCount(ms))
            && PausedCount(r) == PausedCount(ms) + Min(n, ActiveCount(ms))
  {
    if ms != [] && n > 0 {
      var rest, m := ms[..|ms| - 1], ms[|ms| - 1];
      PauseCounts(rest, if m.active then n - 1 else n, now);
    }
  }

  lemma {:induction false} PauseKeepsPool(ms: seq<Monitor>, n: nat, now: int)
    requires Exclusive(ms)
    ensures var r := PauseNewest(ms, n, now);
            && SamePool(ms, r) && Exclusive(r)
            && forall i :: 0 <= i < |ms| && !ms[i].active ==> r[i] == ms[i]
  {
    if ms != [] && n > 0 {
      var rest, m := ms[..|ms| - 1], ms[|ms| - 1];
      PauseKeepsPool(rest, if m.active then n - 1 else n, now);
    }
  }

  lemma {:induction false} PauseKeepsOrder(ms: seq<Monitor>, n: nat, now: int)
    requires Exclusive(ms) && OldestActive(ms)
    ensures OldestActive(PauseNewest(ms, n, now))
  {
    if ms != [] && n > 0 {
      var rest, m := ms[..|ms| - 1], ms[|ms| - 1];
      assert OldestActive(rest);
      PauseKeepsOrder(rest, if m.active then n - 1 else n, now);
    }
  }

  lemma {:induction false} PauseShape(ms: seq<Monitor>, n: nat, now: int)
    requires Exclusive(ms)
    ensures var r := PauseNewest(ms, n, now);
            && |r| == |ms| && SamePool(ms, r) && Exclusive(r)
            && ActiveCount(r) == ActiveCount(ms) - Min(n, ActiveCount(ms))
            && PausedCount(r) == PausedCount(ms) + Min(n, ActiveCount(ms))
            && (OldestActive(ms) ==> OldestActive(r))
  {
    PauseCounts(ms, n, now);
    PauseKeepsPool(ms, n, now);
    if OldestActive(ms) {
      PauseKeepsOrder(ms, n, now);
    }
  }

  lemma {:induction false} ResumeCounts(ms: seq<Monitor>, n: nat)
    requires Exclusive(ms)
    ensures var r := ResumeOldest(ms, n);
            && ActiveCount(r) == ActiveCount(ms) + Min(n, PausedCount(ms))
            && PausedCount(r) == PausedCount(ms) - Min(n, PausedCount(ms))
  {
    if ms != [] && n > 0 {
      var m, rest := ms[0], ms[1..];
      var fewer := if m.capacityPausedAt.Some? then n - 1 else n;
      ResumeCounts(rest, fewer);
      assert ms == [m] + rest;
      CountsSplit([m], rest);
      var head := if m.capacityPausedAt.Some? then m.(active := true, capacityPausedAt := None) else m;
      CountsSplit([head], ResumeOldest(rest, fewer));
    }
  }

  lemma {:induction false} ResumeKeepsPool(ms: seq<Monitor>, n: nat)
    requires Exclusive(ms)
    ensures var r := ResumeOldest(ms, n);
            && SamePool(ms, r) && Exclusive(r)
            && forall i :: 0 <= i < |ms| && ms[i].capacityPausedAt.None? ==> r[i] == ms[i]
  {
    if ms != [] && n > 0 {
      var m, rest := ms[0], ms[1..];
      ResumeKeepsPool(rest, if m.capacityPausedAt.Some? then n - 1 else n);
    }
  }

  lemma {:induction false} ResumeKeepsOrder(ms: seq<Monitor>, n: nat)
    requires Exclusive(ms) && OldestActive(ms)
    ensures OldestActive(ResumeOldest(ms, n))
  {
    if ms != [] && n > 0 {
      var m, rest := ms[0], ms[1..];
      assert OldestActive(rest);
      ResumeKeepsOrder(rest, if m.capacityPausedAt.Some? then n - 1 else n);
    }
  }

  lemma {:induction false} ResumeShape(ms: seq<Monitor>, n: nat)
    requires Exclusive(ms)
    ensures var r := ResumeOldest(ms, n);
            && |r| == |ms| && SamePool(ms, r) && Exclusive(r)
            && ActiveCount(r) == ActiveCount(ms) + Min(n, PausedCount(ms))
            && PausedCount(r) == PausedCount(ms) - Min(n, PausedCount(ms))
            && (OldestActive(ms) ==> OldestActive(r))
  {
    ResumeCounts(ms, n);
    ResumeKeepsPool(ms, n);
    if OldestActive(ms) {
      ResumeKeepsOrder(ms, n);
    }
  }

  /** How many are active decides which: of a pool, the oldest. */
  lemma {:induction false} CountFromTheFront(ms: seq<Monitor>)
    requires ms != []
    ensures ActiveCount(ms) == (if ms[0].active then 1 else 0) + ActiveCount(ms[1..])
  {
    assert ms == ms[..1] + ms[1..];
    CountsSplit(ms[..1], ms[1..]);
    assert ms[..1][..0] == [];
  }

  lemma {:induction false} NoneActiveAfterPaused(ms: seq<Monitor>)
    requires OldestActive(ms) && ms != [] && ms[0].capacityPausedAt.Some?
    ensures ActiveCount(ms[1..]) == 0
  {
    NoneActive(ms[1..]);
  }

  lemma {:induction false} CountDecidesWhich(a: seq<Monitor>, b: seq<Monitor>)
    requires SamePool(a, b) && OldestActive(a) && OldestActive(b)
    requires ActiveCount(a) == ActiveCount(b)
    ensures SameActive(a, b)
  {
    if a != [] {
      CountFromTheFront(a);
      CountFromTheFront(b);
      if a[0].active && !b[0].active {
        NoneActiveAfterPaused(b);
      } else if !a[0].active && b[0].active {
        NoneActiveAfterPaused(a);
      } else {
        CountDecidesWhich(a[1..], b[1..]);
        SameActiveFront(a, b);
      }
    }
  }

  lemma {:induction false} SameActiveFront(a: seq<Monitor>, b: seq<Monitor>)
    requires a != [] && b != [] && a[0].active == b[0].active && SameActive(a[1..], b[1..])
    ensures SameActive(a, b)
  {
    forall i | 0 <= i < |a| ensures a[i].active == b[i].active {
      if i > 0 {
        assert a[1..][i - 1] == a[i] && b[1..][i - 1] == b[i];
      }
    }
  }

  lemma {:induction false} NoneActive(ms: seq<Monitor>)
    requires forall i :: 0 <= i < |ms| ==> !ms[i].active
    ensures ActiveCount(ms) == 0
  {
    CountsAreBounded(ms);
  }

  lemma {:induction false} PausedAtCeiling(ms: seq<Monitor>, ceiling: nat, now: int)
    requires Exclusive(ms) && OldestActive(ms)
    ensures var r := PauseAt(ms, ceiling, now);
            && SamePool(ms, r) && Exclusive(r) && OldestActive(r)
            && ActiveCount(r) == Min(ceiling, ActiveCount(ms))
            && ActiveCount(r) + PausedCount(r) == ActiveCount(ms) + PausedCount(ms)
  {
    if ActiveCount(ms) > ceiling { PauseShape(ms, ActiveCount(ms) - ceiling, now); }
  }

  /** A raise resumes what the rise and the room under the new ceiling allow. */
  lemma {:induction false} RaisedToCeiling(ms: seq<Monitor>, low: nat, high: nat)
    requires Exclusive(ms) && OldestActive(ms) && low <= high
    ensures var r := Raise(ms, Some(low), Some(high));
            && SamePool(ms, r) && OldestActive(r)
            && ActiveCount(r) == ActiveCount(ms)
                                 + Min(Max(0, Min(high - low, high - ActiveCount(ms))), PausedCount(ms))
  {
    ResumeShape(ms, Room(ms, Some(low), Some(high)));
    if low == high { CountsAreBounded(ms); }
  }

  /**
   * Pausing at a ceiling and raising it later leaves active just what pausing at the higher ceiling
   * would have, exactly when no monitor was paused for capacity before, or the higher ceiling is no more
   * than were active, or is no higher. Otherwise the raise resumes monitors of an earlier pause as well.
   */
  lemma {:induction false} RaiseUndoesPauseExactlyWhen(ms: seq<Monitor>, low: nat, high: nat, now: int, later: int)
    requires Exclusive(ms) && OldestActive(ms) && low <= high
    ensures var both := Raise(PauseAt(ms, low, now), Some(low), Some(high));
            var once := PauseAt(ms, high, later);
            && SamePool(ms, both) && SamePool(ms, once)
            && (SameActive(both, once) <==> PausedCount(ms) == 0 || high <= ActiveCount(ms) || high == low)
  {
    var paused := PauseAt(ms, low, now);
    var both, once := Raise(paused, Some(low), Some(high)), PauseAt(ms, high, later);
    PausedAtCeiling(ms, low, now);
    PausedAtCeiling(ms, high, later);
    RaisedToCeiling(paused, low, high);
    SamePoolTrans(ms, paused, both);
    if ActiveCount(both) == ActiveCount(once) { SameCountSameActive(ms, both, once); }
    if SameActive(both, once) { SameActiveSameCount(both, once); }
  }

  lemma {:induction false} SameActiveSameCount(a: seq<Monitor>, b: seq<Monitor>)
    requires SameActive(a, b)
    ensures ActiveCount(a) == ActiveCount(b)
  {
    if a != [] { SameActiveSameCount(a[..|a| - 1], b[..|b| - 1]); }
  }

  lemma {:induction false} SameCountSameActive(ms: seq<Monitor>, a: seq<Monitor>, b: seq<Monitor>)
    requires SamePool(ms, a) && SamePool(ms, b) && OldestActive(a) && OldestActive(b)
    requires ActiveCount(a) == ActiveCount(b)
    ensures SameActive(a, b)
  {
    SamePoolSym(ms, a);
    SamePoolTrans(a, ms, b);
    CountDecidesWhich(a, b);
  }

  lemma {:induction false} SamePoolSym(a: seq<Monitor>, b: seq<Monitor>)
    requires SamePool(a, b)
    ensures SamePool(b, a)
  {}

  lemma {:induction false} SamePoolTrans(a: seq<Monitor>, b: seq<Monitor>, c: seq<Monitor>)
    requires SamePool(a, b) && SamePool(b, c)
    ensures SamePool(a, c)
  {}

  datatype Change = Paused(ceiling: nat, at: int) | Raised(before: Option<nat>, after: Option<nat>)

  function ChangedBy(ms: seq<Monitor>, change: Change): seq<Monitor> {
    match change
    case Paused(ceiling, at) => PauseAt(ms, ceiling, at)
    case Raised(before, after) => Raise(ms, before, after)
  }

  function Changed(ms: seq<Monitor>, changes: seq<Change>): seq<Monitor> {
    if changes == [] then ms
    else ChangedBy(Changed(ms, changes[..|changes| - 1]), changes[|changes| - 1])
  }

  lemma {:induction false} ChangeKeepsTheOldest(ms: seq<Monitor>, change: Change)
    requires Exclusive(ms) && OldestActive(ms)
    ensures var r := ChangedBy(ms, change); Exclusive(r) && OldestActive(r) && SamePool(ms, r)
  {
    match change {
      case Paused(ceiling, at) =>
        if ActiveCount(ms) > ceiling { PauseShape(ms, ActiveCount(ms) - ceiling, at); }
      case Raised(before, after) => ResumeShape(ms, Room(ms, before, after));
    }
  }

  /**
   * As long as the customer changes nothing, whatever pauses and raises happen, every active monitor is
   * older than every capacity-paused one, and together they are the monitors active at the start.
   */
  lemma {:induction false} PausesAndRaisesKeepTheOldest(ms: seq<Monitor>, changes: seq<Change>)
    requires Exclusive(ms) && PausedCount(ms) == 0
    ensures var r := Changed(ms, changes); Exclusive(r) && OldestActive(r) && SamePool(ms, r)
  {
    CountsAreBounded(ms);
    if changes != [] {
      var earlier := Changed(ms, changes[..|changes| - 1]);
      PausesAndRaisesKeepTheOldest(ms, changes[..|changes| - 1]);
      ChangeKeepsTheOldest(earlier, changes[|changes| - 1]);
      SamePoolTrans(ms, earlier, Changed(ms, changes));
    } else {
      assert OldestActive(ms);
    }
  }

  /** Monitors paused at a ceiling of one, then raised to two: more run than if a pause at two had followed. */
  lemma {:induction false} RaiseResumesAnEarlierPause() returns (start: seq<Monitor>, changes: seq<Change>)
    ensures Exclusive(start) && PausedCount(start) == 0
    ensures var ms := Changed(start, changes);
            !SameActive(Raise(PauseAt(ms, 1, 1), Some(1), Some(2)), PauseAt(ms, 2, 1))
  {
    var a, b := Monitor(0, 0, true, None), Monitor(1, 1, true, None);
    start, changes := [a, b], [Paused(1, 0)];
    assert [a][..0] == [] && [a, b][..1] == [a];
    assert PausedCount([a]) == 0 && ActiveCount([a]) == 1;
    assert changes[..0] == [] && Changed(start, []) == start;
    var ms := Changed(start, changes);
    assert ms == ChangedBy(start, changes[0]);
    PausesAndRaisesKeepTheOldest(start, changes);
    PausedAtCeiling(start, 1, 0);
    RaiseUndoesPauseExactlyWhen(ms, 1, 2, 1, 1);
  }

  /** A raise resumes no more than the rise, never past the new ceiling, and what it may it resumes. */
  lemma {:induction false} RaiseStaysWithinTheCeiling(ms: seq<Monitor>, before: Option<nat>, after: Option<nat>)
    requires Exclusive(ms)
    ensures var r := Raise(ms, before, after);
            var resumed := ActiveCount(r) - ActiveCount(ms);
            && 0 <= resumed <= PausedCount(ms)
            && (after.Some? && resumed > 0 ==> resumed <= after.value - before.value && ActiveCount(r) <= after.value)
            && (before.Some? && after.Some? && before.value < after.value && PausedCount(r) > 0 ==>
                  resumed == after.value - before.value || ActiveCount(r) >= after.value)
            && (before.Some? && after.None? ==> PausedCount(r) == 0)
  {
    ResumeShape(ms, Room(ms, before, after));
    CountsAreBounded(ms);
  }

  /** A pause at the ceiling leaves exactly the ceiling active. */
  lemma {:induction false} PauseLeavesTheCeiling(ms: seq<Monitor>, ceiling: nat, now: int)
    requires Exclusive(ms) && ActiveCount(ms) >= ceiling
    ensures ActiveCount(PauseAt(ms, ceiling, now)) == ceiling
  {
    if ActiveCount(ms) > ceiling { PauseCounts(ms, ActiveCount(ms) - ceiling, now); }
  }

  /** Some active monitors were paused by capacity, and every monitor that stays active is older than those. */
  ghost predicate NewestPaused(before: seq<Monitor>, after: seq<Monitor>, now: int) {
    && |after| == |before|
    && (forall i :: 0 <= i < |before| ==>
          || after[i] == before[i]
          || (before[i].active && after[i] == before[i].(active := false, capacityPausedAt := Some(now))))
    && (forall i, j :: 0 <= i < j < |before| && after[i] != before[i] ==> !after[j].active)
  }

  /** Some monitors that capacity paused were resumed, and every one that stays so is newer than those. */
  ghost predicate OldestResumed(before: seq<Monitor>, after: seq<Monitor>) {
    && |after| == |before|
    && (forall i :: 0 <= i < |before| ==>
          || after[i] == before[i]
          || (before[i].capacityPausedAt.Some?
              && after[i] == before[i].(active := true, capacityPausedAt := None)))
    && (forall i, j :: 0 <= i < j < |before| && after[j] != before[j] ==> after[i].capacityPausedAt.None?)
  }

  lemma {:induction false} PauseTakesNewest(ms: seq<Monitor>, n: nat, now: int)
    ensures NewestPaused(ms, PauseNewest(ms, n, now), now)
  {
    if ms != [] && n > 0 {
      var last := |ms| - 1;
      var m, rest := ms[last], ms[..last];
      var paused := PauseNewest(rest, if m.active then n - 1 else n, now);
      PauseTakesNewest(rest, if m.active then n - 1 else n, now);
      var p := if m.active then m.(active := false, capacityPausedAt := Some(now)) else m;
      NewestPausedGrows(rest, paused, m, p, now);
      assert rest + [m] == ms;
    }
  }

  lemma {:induction false} NewestPausedGrows(before: seq<Monitor>, after: seq<Monitor>, m: Monitor, p: Monitor,
                                             now: int)
    requires NewestPaused(before, after, now) && !p.active
    requires p == m || (m.active && p == m.(active := false, capacityPausedAt := Some(now)))
    ensures NewestPaused(before + [m], after + [p], now)
  {}

  lemma {:induction false} PauseLeavesActive(ms: seq<Monitor>, n: nat, now: int)
    ensures ActiveCount(PauseNewest(ms, n, now)) == ActiveCount(ms) - Min(n, ActiveCount(ms))
  {
    if ms != [] && n > 0 {
      PauseLeavesActive(ms[..|ms| - 1], if ms[|ms| - 1].active then n - 1 else n, now);
    }
  }

  lemma {:induction false} PausedSplit(ms: seq<Monitor>)
    requires ms != []
    ensures PausedCount(ms) == PausedCount(ms[1..]) + if ms[0].capacityPausedAt.Some? then 1 else 0
  {
    assert ms == [ms[0]] + ms[1..];
    CountsSplit([ms[0]], ms[1..]);
  }

  lemma {:induction false} OldestResumedGrows(m: Monitor, r: Monitor, before: seq<Monitor>, after: seq<Monitor>)
    requires OldestResumed(before, after) && r.capacityPausedAt.None?
    requires r == m || (m.capacityPausedAt.Some? && r == m.(active := true, capacityPausedAt := None))
    ensures OldestResumed([m] + before, [r] + after)
  {}

  lemma {:induction false} ResumeLeavesPaused(ms: seq<Monitor>, n: nat)
    ensures PausedCount(ResumeOldest(ms, n)) == PausedCount(ms) - Min(n, PausedCount(ms))
  {
    if ms != [] && n > 0 {
      var r := ResumeOldest(ms, n);
      var fewer := if ms[0].capacityPausedAt.Some? then n - 1 else n;
      ResumeLeavesPaused(ms[1..], fewer);
      assert r[1..] == ResumeOldest(ms[1..], fewer);
      PausedSplit(ms);
      PausedSplit(r);
    }
  }

  lemma {:induction false} ResumeTakesOldest(ms: seq<Monitor>, n: nat)
    ensures OldestResumed(ms, ResumeOldest(ms, n))
  {
    if ms != [] && n > 0 {
      var m, rest := ms[0], ms[1..];
      var fewer := if m.capacityPausedAt.Some? then n - 1 else n;
      ResumeTakesOldest(rest, fewer);
      var r := if m.capacityPausedAt.Some? then m.(active := true, capacityPausedAt := None) else m;
      OldestResumedGrows(m, r, rest, ResumeOldest(rest, fewer));
      assert [m] + rest == ms;
    }
  }

  /** How many a raise resumes: all of them without a ceiling, else what the rise and the new ceiling leave room for. */
  ghost function Resumed(ms: seq<Monitor>, before: Option<nat>, after: Option<nat>): int {
    if before.None? || (after.Some? && after.value <= before.value) then 0
    else if after.None? then PausedCount(ms)
    else Max(0, Min(Min(after.value - before.value, after.value - ActiveCount(ms)), PausedCount(ms)))
  }

  lemma {:induction false} RaiseResumesOldest(ms: seq<Monitor>, before: Option<nat>, after: Option<nat>)
    ensures OldestResumed(ms, Raise(ms, before, after))
    ensures Min(Room(ms, before, after), PausedCount(ms)) == Resumed(ms, before, after)
    ensures PausedCount(Raise(ms, before, after)) == PausedCount(ms) - Resumed(ms, before, after)
  {
    CountsAreBounded(ms);
    ResumeTakesOldest(ms, Room(ms, before, after));
    ResumeLeavesPaused(ms, Room(ms, before, after));
  }

  // ---------------------------------------------------------------------------------------------
  // The table
  // ---------------------------------------------------------------------------------------------

  class Monitors {
    var rows: seq<Monitor>

    constructor (rows: seq<Monitor>)
      ensures this.rows == rows
    {
      this.rows := rows;
    }

    method CountActive() returns (n: nat)
      ensures n == ActiveCount(rows)
    {
      n := 0;
      for i := 0 to |rows|
        invariant n == ActiveCount(rows[..i])
      {
        assert rows[..i + 1][..i] == rows[..i];
        n := n + if rows[i].active then 1 else 0;
      }
      assert rows[..|rows|] == rows;
    }

    /** A pause in place, from the end of the list on. */
    method Pause(limit: nat, now: int) returns (paused: nat)
      modifies this
      ensures rows == PauseNewest(old(rows), limit, now)
      ensures paused == Min(limit, ActiveCount(old(rows)))
      ensures NewestPaused(old(rows), rows, now) && ActiveCount(rows) == ActiveCount(old(rows)) - paused
    {
      PauseTakesNewest(rows, limit, now);
      PauseLeavesActive(rows, limit, now);
      paused := 0;
      var older, newer: seq<Monitor> := rows, [];
      assert PauseNewest(rows, limit, now) + [] == PauseNewest(rows, limit, now);
      while older != [] && paused < limit
        invariant paused <= limit
        invariant PauseNewest(rows, limit, now) == PauseNewest(older, limit - paused, now) + newer
        invariant Min(limit, ActiveCount(rows)) == paused + Min(limit - paused, ActiveCount(older))
        invariant rows == old(rows)
      {
        var m := older[|older| - 1];
        older := older[..|older| - 1];
        if m.active {
          m := m.(active := false, capacityPausedAt := Some(now));
          paused := paused + 1;
        }
        ghost var rest := PauseNewest(older, limit - paused, now);
        assert rest + [m] + newer == rest + ([m] + newer);
        newer := [m] + newer;
      }
      rows := older + newer;
    }

    /** Resumes the oldest monitors that capacity paused, up to `take`. */
    method Resume(take: nat) returns (resumed: nat)
      modifies this
      ensures rows == ResumeOldest(old(rows), take)
      ensures resumed == Min(take, PausedCount(old(rows)))
    {
      hide ResumeOldest, PausedCount;
      resumed := 0;
      var done: seq<Monitor> := [];
      while |done| < |rows| && resumed < take
        invariant rows == old(rows) && |done| <= |rows| && resumed <= take
        invariant ResumeOldest(rows, take) == done + ResumeOldest(rows[|done|..], take - resumed)
        invariant Min(take, PausedCount(rows)) == resumed + Min(take - resumed, PausedCount(rows[|done|..]))
      {
        var m := rows[|done|];
        FrontResumed(done, rows[|done|..], take - resumed);
        OneResumed(rows[|done|..], take - resumed);
        assert rows[|done|..][1..] == rows[|done| + 1..];
        if m.capacityPausedAt.Some? {
          m := m.(active := true, capacityPausedAt := None);
          resumed := resumed + 1;
        }
        done := done + [m];
      }
      NothingResumed(rows[|done|..], take - resumed);
      rows := done + rows[|done|..];
    }

    /** Resumes what a raise gives room for. */
    method ResumeAfterRaise(before: Option<nat>, after: Option<nat>) returns (resumed: nat)
      modifies this
      ensures rows == Raise(old(rows), before, after)
      ensures OldestResumed(old(rows), rows) && PausedCount(rows) == PausedCount(old(rows)) - resumed
      ensures resumed == Resumed(old(rows), before, after)
    {
      RaiseResumesOldest(rows, before, after);
      if before.None? || (after.Some? && after.value <= before.value) {
        return 0;
      }
      var active := CountActive();
      var take := if after.None? then |rows| else Min(after.value - before.value, after.value - active);
      if take <= 0 {
        return 0;
      }
      resumed := Resume(take);
    }

    /**
     * Adds a monitor, or resumes the one at `resume`, only while the ceiling has room. No ceiling is
     * None.
     */
    method TakeSlot(limit: Option<nat>, resume: Option<nat>, createdAt: int, id: nat) returns (ok: bool)
      requires resume.Some? ==> resume.value < |rows| && !rows[resume.value].active
      modifies this
      ensures ok == (limit.None? || ActiveCount(old(rows)) < limit.value)
      ensures rows == if !ok then old(rows)
                      else if resume.Some? then
                        old(rows)[resume.value := old(rows)[resume.value].(active := true, capacityPausedAt := None)]
                      else old(rows) + [Monitor(createdAt, id, true, None)]
      ensures ActiveCount(rows) == ActiveCount(old(rows)) + if ok then 1 else 0
      ensures limit.Some? ==> ActiveCount(rows) <= limit.value || rows == old(rows)
    {
      var active := CountActive();
      if limit.Some? && active >= limit.value {
        return false;
      }
      if resume.Some? {
        var i := resume.value;
        var m := rows[i].(active := true, capacityPausedAt := None);
        ActivatedCount(rows, i, m);
        rows := rows[i := m];
      } else {
        CountsSplit(rows, [Monitor(createdAt, id, true, None)]);
        rows := rows + [Monitor(createdAt, id, true, None)];
      }
      return true;
    }
  }

  lemma {:induction false} NothingResumed(left: seq<Monitor>, room: nat)
    requires left == [] || room == 0
    ensures ResumeOldest(left, room) == left && Min(room, PausedCount(left)) == 0
  {}

  lemma {:induction false} OneResumed(left: seq<Monitor>, room: nat)
    requires left != [] && room > 0
    ensures Min(room, PausedCount(left))
            == if left[0].capacityPausedAt.Some? then 1 + Min(room - 1, PausedCount(left[1..]))
               else Min(room, PausedCount(left[1..]))
  {
    PausedSplit(left);
  }

  /** Moves the first of the monitors left to look at over to those that are done. */
  lemma {:induction false} FrontResumed(done: seq<Monitor>, left: seq<Monitor>, n: nat)
    requires left != [] && n > 0
    ensures var m := left[0];
            done + ResumeOldest(left, n)
            == if m.capacityPausedAt.Some? then
                 (done + [m.(active := true, capacityPausedAt := None)]) + ResumeOldest(left[1..], n - 1)
               else (done + [m]) + ResumeOldest(left[1..], n)
  {}

  lemma {:induction false} ActivatedCount(ms: seq<Monitor>, i: nat, m: Monitor)
    requires i < |ms| && !ms[i].active && m.active
    ensures ActiveCount(ms[i := m]) == ActiveCount(ms) + 1
  {
    assert ms == ms[..i] + [ms[i]] + ms[i + 1..];
    assert ms[i := m] == ms[..i] + [m] + ms[i + 1..];
    CountsSplit(ms[..i] + [ms[i]], ms[i + 1..]);
    CountsSplit(ms[..i] + [m], ms[i + 1..]);
    CountsSplit(ms[..i], [ms[i]]);
    CountsSplit(ms[..i], [m]);
  }

  // ---------------------------------------------------------------------------------------------
  // Pausing by id
  // ---------------------------------------------------------------------------------------------

  /** The ids of the `n` active monitors at the end of the list, where a pause begins. */
  function NewestActive(ms: seq<Monitor>, n: nat): set<nat> {
    if ms == [] || n == 0 then {}
    else
      var m, rest := ms[|ms| - 1], ms[..|ms| - 1];
      if m.active then NewestActive(rest, n - 1) + {m.id} else NewestActive(rest, n)
  }

  /** Pauses the monitors named, where they are still active. */
  function PauseNamed(ms: seq<Monitor>, ids: set<nat>, now: int): seq<Monitor> {
    seq(|ms|, i requires 0 <= i < |ms| =>
      if ms[i].id in ids && ms[i].active then ms[i].(active := false, capacityPausedAt := Some(now)) else ms[i])
  }

  /** A monitor that is named but no longer active stays as its owner left it, and so does one not named. */
  lemma {:induction false} OnlyNamedArePaused(ms: seq<Monitor>, ids: set<nat>, now: int)
    ensures var r := PauseNamed(ms, ids, now);
            && |r| == |ms|
            && (forall i :: 0 <= i < |ms| && ms[i].active && ms[i].id in ids ==>
                  r[i] == Monitor(ms[i].createdAt, ms[i].id, false, Some(now)))
            && (forall i :: 0 <= i < |ms| && !(ms[i].active && ms[i].id in ids) ==> r[i] == ms[i])
  {}

  predicate DistinctIds(ms: seq<Monitor>) {
    forall i, j :: 0 <= i < j < |ms| ==> ms[i].id != ms[j].id
  }

  lemma {:induction false} NamedAreListed(ms: seq<Monitor>, n: nat, id: nat)
    requires id in NewestActive(ms, n)
    ensures exists i :: 0 <= i < |ms| && ms[i].id == id
  {
    if ms != [] && n > 0 {
      var m, rest := ms[|ms| - 1], ms[..|ms| - 1];
      if id in NewestActive(rest, if m.active then n - 1 else n) {
        NamedAreListed(rest, if m.active then n - 1 else n, id);
        var i :| 0 <= i < |rest| && rest[i].id == id;
        assert ms[i].id == id;
      }
    }
  }

  /** Naming the newest monitors and then pausing them takes exactly those, if nothing changed between. */
  lemma {:induction false} PausingNamedTakesNewest(ms: seq<Monitor>, n: nat, now: int)
    requires DistinctIds(ms)
    ensures PauseNamed(ms, NewestActive(ms, n), now) == PauseNewest(ms, n, now)
  {
    if ms != [] && n > 0 {
      var last := |ms| - 1;
      var m, rest := ms[last], ms[..last];
      var fewer := if m.active then n - 1 else n;
      PausingNamedTakesNewest(rest, fewer, now);
      var named := NewestActive(rest, fewer);
      if m.id in named {
        NamedAreListed(rest, fewer, m.id);
      }
      assert PauseNamed(ms, NewestActive(ms, n), now)[..last] == PauseNamed(rest, named, now);
    }
  }
}
