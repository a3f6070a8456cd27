/**
 * What an organization that stays above its ceiling is told before its monitors are paused, when the grace
 * period's passes come daily and their emails arrive (src/lib/server/services/capacity.service.ts,
 * src/worker/monitor/maintenance.ts).
 */
module DailyGrace {
  import opened Prelude
  import opened Capacity
  import opened Grace

  /** What one day's pass finds. */
  datatype Day = Day(now: int, monitors: seq<Monitor>, ceiling: nat)

  function Before(d: Day, pass: nat): seq<Step> {
    [Customer(d.monitors), Ceiling(Some(d.ceiling)), Load(d.now), Handle(pass)]
  }

  function Daily(days: seq<Day>): seq<Step> {
    if days == [] then []
    else
      var n := |days| - 1;
      Daily(days[..n]) + Before(days[n], n) + [Decide(n, true), Step.Pause(n), Note(n)]
  }

  /** The passes are at most a day apart, and each finds the organization above its ceiling. */
  ghost predicate KeepsOver(days: seq<Day>) {
    && (forall i :: 0 <= i < |days| ==>
          DistinctIds(days[i].monitors) && ActiveCount(days[i].monitors) > days[i].ceiling && days[i].now > 0)
    && (forall i, j :: 0 <= i && j == i + 1 && j < |days| ==> days[i].now < days[j].now <= days[i].now + 86_400_000)
  }

  ghost predicate Warned(log: seq<Entry>, kind: Notice, start: int, from: int, to: int) {
    exists at :: start + from <= at < start + to && Recorded(kind, at, start, Some(start)) in log
  }

  ghost predicate WarnedWeek(log: seq<Entry>, start: int) {
    Warned(log, Week, start, 7 * 86_400_000, 8 * 86_400_000)
  }

  ghost predicate WarnedLastDay(log: seq<Entry>, start: int) {
    Warned(log, LastDay, start, 13 * 86_400_000, 14 * 86_400_000)
  }

  /** A pause came in the 15th or 16th day, and all three warnings before it. */
  ghost predicate PauseWarned(log: seq<Entry>, k: nat, start: int)
    requires k < |log| && log[k].PausedAt?
  {
    && log[k].clock == start && start + 14 * 86_400_000 <= log[k].at < start + 16 * 86_400_000
    && Recorded(Over, start, start, Some(start)) in log[..k]
    && WarnedWeek(log[..k], start) && WarnedLastDay(log[..k], start)
  }

  ghost predicate PausesWarned(log: seq<Entry>, start: int) {
    forall k :: 0 <= k < |log| && log[k].PausedAt? ==> PauseWarned(log, k, start)
  }

  ghost predicate AnyPause(log: seq<Entry>) {
    exists k :: 0 <= k < |log| && log[k].PausedAt?
  }

  /** The columns after a pass, `elapsed` after the clock's start. */
  ghost predicate NoticeAt(sub: Sub, start: int, elapsed: int) {
    && sub.since == Some(start) && sub.notice.Some? && sub.noticedAt.Some?
    && (elapsed < 7 * 86_400_000 ==> sub.notice == Some(Over))
    && (7 * 86_400_000 <= elapsed < 13 * 86_400_000 ==> sub.notice == Some(Week))
    && (13 * 86_400_000 <= elapsed < 14 * 86_400_000 ==> sub.notice == Some(LastDay))
    && (14 * 86_400_000 <= elapsed < 15 * 86_400_000 ==> sub.notice in {Some(LastDay), Some(Notice.Paused)})
    && (15 * 86_400_000 <= elapsed ==> sub.notice == Some(Notice.Paused))
    && (sub.notice == Some(LastDay) ==>
          start + 13 * 86_400_000 <= sub.noticedAt.value < start + 14 * 86_400_000)
  }

  ghost predicate LogAt(log: seq<Entry>, sub: Sub, start: int) {
    && Recorded(Over, start, start, Some(start)) in log
    && (sub.notice in {Some(Week), Some(LastDay), Some(Notice.Paused)} ==> WarnedWeek(log, start))
    && (sub.notice in {Some(LastDay), Some(Notice.Paused)} ==> WarnedLastDay(log, start))
    && PausesWarned(log, start)
    && (sub.notice == Some(Notice.Paused) ==> AnyPause(log))
  }

  ghost predicate DailyOk(s: State, n: nat, start: int, last: int) {
    && |s.passes| == n && AllDone(s.passes) && s.lastPass == last && start <= last
    && NoticeAt(s.row.sub, start, last - start) && LogAt(s.log, s.row.sub, start)
  }

  lemma {:induction false} WarnedGrows(log: seq<Entry>, more: seq<Entry>, kind: Notice, start: int, from: int, to: int)
    requires Warned(log, kind, start, from, to)
    ensures Warned(log + more, kind, start, from, to)
  {
    var at :| start + from <= at < start + to && Recorded(kind, at, start, Some(start)) in log;
    assert Recorded(kind, at, start, Some(start)) in log + more;
  }

  /** Entries that are no pause keep what is known of the log. */
  lemma {:induction false} LogGrows(log: seq<Entry>, more: seq<Entry>, sub: Sub, start: int)
    requires LogAt(log, sub, start) && forall e :: e in more ==> !e.PausedAt?
    ensures LogAt(log + more, sub, start)
  {
    if WarnedWeek(log, start) { WarnedGrows(log, more, Week, start, 7 * 86_400_000, 8 * 86_400_000); }
    if WarnedLastDay(log, start) { WarnedGrows(log, more, LastDay, start, 13 * 86_400_000, 14 * 86_400_000); }
    var all := log + more;
    forall k | |log| <= k < |all| ensures !all[k].PausedAt? {
      assert all[k] == more[k - |log|];
    }
    forall k | 0 <= k < |log| && all[k].PausedAt? ensures PauseWarned(all, k, start) {
      assert PauseWarned(log, k, start);
      assert all[..k] == log[..k];
    }
    if AnyPause(log) {
      var k :| 0 <= k < |log| && log[k].PausedAt?;
      assert all[k].PausedAt?;
    }
  }

  /** A day up to the decision: the pass has loaded a row above its ceiling, whose clock now runs. */
  lemma {:induction false} DayBegins(steps: seq<Step>, s: State, d: Day) returns (more: seq<Step>, t: State)
    requires s == Run(steps) && AllDone(s.passes) && d.now > s.lastPass
    requires DistinctIds(d.monitors) && ActiveCount(d.monitors) > d.ceiling
    ensures more == steps + Before(d, |s.passes|) && t == Run(more)
    ensures var n := |s.passes|;
            && |t.passes| == n + 1 && t.passes[..n] == s.passes && t.lastPass == d.now
            && t.passes[n].stage.Deciding? && t.passes[n].now == d.now && t.passes[n].row.sub == s.row.sub
            && (s.row.sub.since.Some? ==>
                  t.row == s.row && t.log == s.log + [Began(d.now), Found(true, |s.log|, true)])
            && (s.row.sub.since.None? ==>
                  && t.row.sub == Sub(Some(d.now), None, None)
                  && t.log == s.log + [Began(d.now), Started(d.now), Found(true, |s.log|, false)])
  {
    var n := |s.passes|;
    more, t := Extend(steps, s, Customer(d.monitors));
    more, t := Extend(more, t, Ceiling(Some(d.ceiling)));
    more, t := Extend(more, t, Load(d.now));
    assert t.passes[n].Over();
    more, t := Extend(more, t, Handle(n));
  }

  /** The rest of the day, when a warning is due. */
  lemma {:induction false} DayWarns(steps: seq<Step>, s: State, n: nat, due: Notice)
    returns (more: seq<Step>, t: State)
    requires s == Run(steps) && |s.passes| == n + 1 && s.passes[n].stage.Deciding?
    requires var p := s.passes[n]; due == WarningDue(p.now - p.Clock()) && Rank(p.row.sub.notice) < Rank(Some(due))
    ensures more == steps + [Decide(n, true), Step.Pause(n), Note(n)] && t == Run(more)
    ensures var p := s.passes[n];
            && t.row.sub == s.row.sub.(notice := Some(due), noticedAt := Some(p.now))
            && t.log == s.log + [Delivered(due, p.now, p.Clock()), Recorded(due, p.now, p.Clock(), s.row.sub.since)]
            && t.passes == s.passes[n := p.(stage := Done)] && t.lastPass == s.lastPass
  {
    more, t := Extend(steps, s, Decide(n, true));
    more, t := Extend(more, t, Step.Pause(n));
    more, t := Extend(more, t, Note(n));
  }

  /** The rest of the day, when no warning is due. */
  lemma {:induction false} DayPauses(steps: seq<Step>, s: State, n: nat) returns (more: seq<Step>, t: State)
    requires s == Run(steps) && |s.passes| == n + 1 && s.passes[n].stage.Deciding?
    requires var p := s.passes[n]; Rank(p.row.sub.notice) >= Rank(Some(WarningDue(p.now - p.Clock())))
    ensures more == steps + [Decide(n, true), Step.Pause(n), Note(n)] && t == Run(more)
    ensures var p := s.passes[n];
            && t.passes == s.passes[n := p.(stage := Done)] && t.lastPass == s.lastPass
            && if Enforces(p.row.sub, p.Clock(), p.now) then
                 && t.row.sub == s.row.sub.(notice := Some(Notice.Paused), noticedAt := Some(p.now))
                 && t.log == s.log + [Delivered(Notice.Paused, p.now, p.Clock()),
                                      PausedAt(p.now, p.Clock(), p.row.sub.noticedAt.value, p.row.from, p.loaded),
                                      Recorded(Notice.Paused, p.now, p.Clock(), s.row.sub.since)]
               else t.row.sub == s.row.sub && t.log == s.log
  {
    more, t := Extend(steps, s, Decide(n, true));
    more, t := Extend(more, t, Step.Pause(n));
    more, t := Extend(more, t, Note(n));
  }

  /** The record of a warning in its time. */
  lemma {:induction false} WarningLogged(log: seq<Entry>, before: Sub, after: Sub, start: int, now: int, due: Notice)
    requires LogAt(log, before, start) && after.notice == Some(due)
    requires (due == Week && before.notice == Some(Over) && start + 7 * 86_400_000 <= now < start + 8 * 86_400_000)
             || (due == LastDay && before.notice == Some(Week)
                 && start + 13 * 86_400_000 <= now < start + 14 * 86_400_000)
    ensures LogAt(log + [Delivered(due, now, start), Recorded(due, now, start, Some(start))], after, start)
  {
    var more := [Delivered(due, now, start), Recorded(due, now, start, Some(start))];
    LogGrows(log, more, before, start);
    assert (log + more)[|log| + 1] == Recorded(due, now, start, Some(start));
  }

  lemma {:induction false} PausesAppend(log: seq<Entry>, p: Entry, start: int)
    requires PausesWarned(log, start) && p.PausedAt? && p.clock == start
    requires start + 14 * 86_400_000 <= p.at < start + 16 * 86_400_000
    requires Recorded(Over, start, start, Some(start)) in log && WarnedWeek(log, start) && WarnedLastDay(log, start)
    ensures PausesWarned(log + [p], start)
  {
    var all := log + [p];
    forall k | 0 <= k < |all| && all[k].PausedAt? ensures PauseWarned(all, k, start) {
      if k == |log| {
        assert all[..k] == log;
      } else {
        assert PauseWarned(log, k, start);
        assert all[..k] == log[..k];
      }
    }
  }

  lemma {:induction false} PauseCame(log: seq<Entry>, p: Entry)
    requires p.PausedAt?
    ensures AnyPause(log + [p])
  {
    assert (log + [p])[|log|].PausedAt?;
  }

  lemma {:induction false} PauseLogged(log: seq<Entry>, before: Sub, after: Sub, start: int, d: Entry, p: Entry,
                                       r: Entry)
    requires LogAt(log, before, start) && before.notice == Some(LastDay) && after.notice == Some(Notice.Paused)
    requires !d.PausedAt? && p.PausedAt? && !r.PausedAt? && p.clock == start
    requires start + 14 * 86_400_000 <= p.at < start + 16 * 86_400_000
    ensures LogAt(log + [d, p, r], after, start)
  {
    hide PausesWarned, Warned, AnyPause;
    var one, two := log + [d], log + [d] + [p];
    LogGrows(log, [d], before, start);
    PausesAppend(one, p, start);
    PauseCame(one, p);
    WarnedGrows(one, [p], Week, start, 7 * 86_400_000, 8 * 86_400_000);
    WarnedGrows(one, [p], LastDay, start, 13 * 86_400_000, 14 * 86_400_000);
    assert LogAt(two, after, start);
    LogGrows(two, [r], after, start);
    assert two + [r] == log + [d, p, r];
  }

  lemma {:induction false} FirstDay(d: Day)
    requires KeepsOver([d])
    ensures DailyOk(Run(Daily([d])), 1, d.now, d.now)
  {
    assert [d][..0] == [] && [d][0] == d;
    assert Daily([d][..0]) == [];
    var steps, s := DayBegins([], INITIAL, d);
    steps, s := DayWarns(steps, s, 0, Over);
    assert steps == Daily([d]);
    assert s.log[|s.log| - 1] == Recorded(Over, d.now, d.now, Some(d.now));
  }

  /** The week's warning comes first and in its day, then the last, then the pause, and otherwise nothing is due. */
  ghost predicate DueNext(sub: Sub, start: int, now: int) {
    var due := WarningDue(now - start);
    if Rank(sub.notice) < Rank(Some(due)) then
      && NoticeAt(Sub(Some(start), Some(due), Some(now)), start, now - start)
      && ((due == Week && sub.notice == Some(Over) && start + 7 * 86_400_000 <= now < start + 8 * 86_400_000)
          || (due == LastDay && sub.notice == Some(Week)
              && start + 13 * 86_400_000 <= now < start + 14 * 86_400_000))
    else if Enforces(sub, start, now) then
      && NoticeAt(Sub(Some(start), Some(Notice.Paused), Some(now)), start, now - start)
      && sub.notice == Some(LastDay) && start + 14 * 86_400_000 <= now < start + 16 * 86_400_000
    else NoticeAt(sub, start, now - start)
  }

  /** What a day's pass has to do follows from the columns the day before left. */
  lemma {:induction false} NextNotice(sub: Sub, start: int, last: int, now: int)
    requires NoticeAt(sub, start, last - start) && start <= last < now <= last + 86_400_000
    ensures DueNext(sub, start, now)
  {}

  lemma {:induction false} NextDay(before: seq<Step>, s: State, d: Day, start: int, last: int)
    requires s == Run(before) && |s.passes| > 0 && DailyOk(s, |s.passes|, start, last)
    requires last < d.now <= last + 86_400_000 && DistinctIds(d.monitors) && ActiveCount(d.monitors) > d.ceiling
    ensures var n := |s.passes|;
            DailyOk(Run(before + Before(d, n) + [Decide(n, true), Step.Pause(n), Note(n)]), n + 1, start, d.now)
  {
    var n := |s.passes|;
    var steps, m := DayBegins(before, s, d);
    LogGrows(s.log, [Began(d.now), Found(true, |s.log|, true)], s.row.sub, start);
    NextNotice(s.row.sub, start, last, d.now);
    DayEnds(steps, m, n, start, s.row.sub);
  }

  lemma {:induction false} DayEnds(steps: seq<Step>, m: State, n: nat, start: int, sub: Sub)
    requires m == Run(steps) && |m.passes| == n + 1 && m.passes[n].stage.Deciding? && m.row.sub == sub
    requires sub.since == Some(start) && m.passes[n].row.sub == sub && AllDone(m.passes[..n])
    requires LogAt(m.log, sub, start) && start < m.passes[n].now == m.lastPass
    requires DueNext(sub, start, m.passes[n].now)
    ensures DailyOk(Run(steps + [Decide(n, true), Step.Pause(n), Note(n)]), n + 1, start, m.lastPass)
  {
    hide NoticeAt, LogAt;
    var p, due := m.passes[n], WarningDue(m.lastPass - start);
    var more, t;
    if Rank(sub.notice) < Rank(Some(due)) {
      more, t := DayWarns(steps, m, n, due);
      WarningLogged(m.log, sub, t.row.sub, start, p.now, due);
      assert t.row.sub == Sub(Some(start), Some(due), Some(p.now));
    } else {
      more, t := DayPauses(steps, m, n);
      if Enforces(sub, start, p.now) {
        PauseLogged(m.log, sub, t.row.sub, start, t.log[|m.log|], t.log[|m.log| + 1], t.log[|m.log| + 2]);
        assert t.row.sub == Sub(Some(start), Some(Notice.Paused), Some(p.now));
        assert t.log == m.log + [t.log[|m.log|], t.log[|m.log| + 1], t.log[|m.log| + 2]];
      }
    }
    forall i | 0 <= i < |t.passes| ensures t.passes[i].stage.Done? {
      if i < n { assert t.passes[i] == m.passes[..n][i]; }
    }
  }

  lemma {:induction false} DaysAreOk(days: seq<Day>)
    requires days != [] && KeepsOver(days)
    ensures DailyOk(Run(Daily(days)), |days|, days[0].now, days[|days| - 1].now)
  {
    var n := |days| - 1;
    if n == 0 {
      assert days == [days[0]];
      FirstDay(days[0]);
    } else {
      var init := days[..n];
      DaysAreOk(init);
      NextDay(Daily(init), Run(Daily(init)), days[n], days[0].now, days[n - 1].now);
    }
  }

  /**
   * While passes come at least daily, find the organization above its ceiling and reach somebody with every email,
   * whatever monitors the customer adds and removes: the first warning is recorded at once, the week's in the
   * eighth day, the last in the fourteenth, and the pause comes in the fifteenth or sixteenth, after all three.
   */
  lemma {:induction false} WarningsPrecedeThePause(days: seq<Day>)
    requires days != [] && KeepsOver(days)
    ensures var log, start := Run(Daily(days)).log, days[0].now;
            var elapsed := days[|days| - 1].now - start;
            && Recorded(Over, start, start, Some(start)) in log
            && (elapsed >= 7 * 86_400_000 ==> WarnedWeek(log, start))
            && (elapsed >= 13 * 86_400_000 ==> WarnedLastDay(log, start))
            && (elapsed >= 15 * 86_400_000 ==> AnyPause(log))
            && PausesWarned(log, start)
  {
    DaysAreOk(days);
  }
}
