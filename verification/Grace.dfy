/**
 * The grace period of an organization above its monitor ceiling: a clock, three warnings and a pause
 * (src/lib/server/services/capacity.service.ts). Times are in milliseconds.
 */
module Grace {
  import opened Prelude
  import opened Capacity

  const DAY := 86_400_000
  const GRACE_PERIOD_DAYS := 14

  datatype Notice = Over | Week | LastDay | Paused

  function Rank(notice: Option<Notice>): int {
    match notice
    case None => -1
    case Some(Over) => 0
    case Some(Week) => 1
    case Some(LastDay) => 2
    case Some(Paused) => 3
  }

  /** The warning due `elapsed` into the grace period. */
  function WarningDue(elapsed: int): Notice {
    if elapsed >= (GRACE_PERIOD_DAYS - 1) * DAY then LastDay
    else if elapsed >= (GRACE_PERIOD_DAYS - 7) * DAY then Week
    else Over
  }

  /** The subscription's grace columns. */
  datatype Sub = Sub(since: Option<int>, notice: Option<Notice>, noticedAt: Option<int>)

  const NO_CLOCK := Sub(None, None, None)

  predicate Within(monitors: seq<Monitor>, ceiling: Option<nat>) {
    ceiling.None? || ActiveCount(monitors) <= ceiling.value
  }

  /** Whether the pause may be enforced: the last warning was delivered, and a full day ago. */
  predicate Enforces(sub: Sub, since: int, now: int) {
    && sub.notice == Some(LastDay)
    && now >= since + GRACE_PERIOD_DAYS * DAY
    && sub.noticedAt.Some? && now >= sub.noticedAt.value + DAY
  }

  // ---------------------------------------------------------------------------------------------
  // Passes and customers, interleaved
  // ---------------------------------------------------------------------------------------------

  /**
   * The subscription's columns, and two things the table does not keep: where in the log its clock
   * started, and which clock its newest notice was about.
   */
  datatype Row = Row(sub: Sub, from: nat, about: int)

  /** How far a pass has come with the organization. A pass that fails or dies is done, too. */
  datatype Stage =
    | Loaded
    | Deciding
    | Announced(named: set<nat>, countThen: nat)
    | Noting(kind: Notice)
    | Done

  /** A pass at `now`, with the row and the count it loaded. Its load is the log's entry `loaded`. */
  datatype Pass = Pass(now: int, loaded: nat, row: Row, active: nat, ceiling: Option<nat>, stage: Stage)
  {
    predicate Over() { ceiling.Some? && active > ceiling.value }

    /** The clock the pass works under: the one it loaded, or the one it starts. */
    function Clock(): int { if row.sub.since.Some? then row.sub.since.value else now }

    predicate Acting() { !stage.Loaded? && !stage.Done? }
  }

  /**
   * What happened, oldest first. A finding names the load it rests on and whether that had a clock, a record
   * the clock then running. `Reset` is a customer's own check that ended a clock.
   */
  datatype Entry =
    | Began(at: int)
    | Found(over: bool, loaded: nat, clocked: bool)
    | Reset
    | Started(at: int)
    | Delivered(kind: Notice, at: int, about: int)
    | Recorded(kind: Notice, at: int, about: int, running: Option<int>)
    | PausedAt(at: int, clock: int, warned: int, from: nat, loaded: nat)

  datatype State = State(row: Row, monitors: seq<Monitor>, ceiling: Option<nat>, passes: seq<Pass>,
                         lastPass: int, log: seq<Entry>)

  /**
   * One statement or one email. Passes overlap when one outlasts the slot of its job, and every pass begins
   * later than those before it. Customers add, remove, pause and resume monitors and move the ceiling
   * between any two steps. `Clear` is the write of a customer's own check, whose count may be stale.
   */
  datatype Step =
    | Load(now: int)
    | Handle(pass: nat)
    | Decide(pass: nat, delivered: bool)
    | Pause(pass: nat)
    | Note(pass: nat)
    | Abandon(pass: nat)
    | Customer(monitors: seq<Monitor>)
    | Ceiling(ceiling: Option<nat>)
    | Clear

  predicate Enabled(s: State, step: Step) {
    match step
    case Load(now) => now > s.lastPass
    case Handle(i) => i < |s.passes| && s.passes[i].stage.Loaded?
    case Decide(i, _) => i < |s.passes| && s.passes[i].stage.Deciding?
    case Pause(i) => i < |s.passes| && s.passes[i].stage.Announced?
    case Note(i) => i < |s.passes| && s.passes[i].stage.Noting?
    case Abandon(i) => i < |s.passes|
    case Customer(monitors) => DistinctIds(monitors)
    case _ => true
  }

  /** Clears the clock, if one runs. */
  function Cleared(sub: Sub): Sub {
    if sub.since.Some? then NO_CLOCK else sub
  }

  function At(s: State, i: nat, stage: Stage): seq<Pass>
    requires i < |s.passes|
  {
    s.passes[i := s.passes[i].(stage := stage)]
  }

  function LoadStep(s: State, now: int): State {
    s.(lastPass := now, log := s.log + [Began(now)],
       passes := s.passes + [Pass(now, |s.log|, s.row, ActiveCount(s.monitors), s.ceiling, Loaded)])
  }

  function HandleStep(s: State, i: nat): State
    requires i < |s.passes|
  {
    var p := s.passes[i];
    if !p.Over() then
      s.(log := s.log + [Found(false, p.loaded, p.row.sub.since.Some?)], passes := At(s, i, Done),
         row := if p.row.sub.since.Some? then s.row.(sub := Cleared(s.row.sub)) else s.row)
    else if p.row.sub.since.Some? then
      s.(log := s.log + [Found(true, p.loaded, true)], passes := At(s, i, Deciding))
    else
      s.(log := s.log + [Started(p.now), Found(true, p.loaded, false)], passes := At(s, i, Deciding),
         row := Row(Sub(Some(p.now), None, None), |s.log|, p.now))
  }

  /** Names the newest monitors above the ceiling, as far as the loaded count goes. */
  function ToPause(s: State, p: Pass): set<nat> {
    var excess := p.active - if p.ceiling.Some? then p.ceiling.value else p.active;
    if excess <= 0 then {} else NewestActive(s.monitors, excess)
  }

  function DecideStep(s: State, i: nat, delivered: bool): State
    requires i < |s.passes|
  {
    var p := s.passes[i];
    var due := WarningDue(p.now - p.Clock());
    if Rank(p.row.sub.notice) < Rank(Some(due)) then
      if !delivered then s.(passes := At(s, i, Done))
      else s.(log := s.log + [Delivered(due, p.now, p.Clock())], passes := At(s, i, Noting(due)))
    else if Enforces(p.row.sub, p.Clock(), p.now) && delivered then
      s.(log := s.log + [Delivered(Notice.Paused, p.now, p.Clock())],
         passes := At(s, i, Announced(ToPause(s, p), ActiveCount(s.monitors))))
    else s.(passes := At(s, i, Done))
  }

  function PauseStep(s: State, i: nat): State
    requires i < |s.passes| && s.passes[i].stage.Announced?
  {
    var p := s.passes[i];
    var warned := if p.row.sub.noticedAt.Some? then p.row.sub.noticedAt.value else 0;
    s.(monitors := PauseNamed(s.monitors, p.stage.named, p.now),
       log := s.log + [PausedAt(p.now, p.Clock(), warned, p.row.from, p.loaded)],
       passes := At(s, i, Noting(Notice.Paused)))
  }

  function NoteStep(s: State, i: nat): State
    requires i < |s.passes| && s.passes[i].stage.Noting?
  {
    var p := s.passes[i];
    s.(row := s.row.(sub := s.row.sub.(notice := Some(p.stage.kind), noticedAt := Some(p.now)), about := p.Clock()),
       log := s.log + [Recorded(p.stage.kind, p.now, p.Clock(), s.row.sub.since)],
       passes := At(s, i, Done))
  }

  function Next(s: State, step: Step): State {
    if !Enabled(s, step) then s
    else match step
      case Load(now) => LoadStep(s, now)
      case Handle(i) => HandleStep(s, i)
      case Decide(i, delivered) => DecideStep(s, i, delivered)
      case Pause(i) => PauseStep(s, i)
      case Note(i) => NoteStep(s, i)
      case Abandon(i) => s.(passes := At(s, i, Done))
      case Customer(monitors) => s.(monitors := monitors)
      case Ceiling(ceiling) => s.(ceiling := ceiling)
      case Clear =>
        if s.row.sub.since.Some? then s.(row := s.row.(sub := NO_CLOCK), log := s.log + [Reset]) else s
  }

  const INITIAL := State(Row(NO_CLOCK, 0, 0), [], None, [], 0, [])

  function Run(steps: seq<Step>): State {
    if steps == [] then INITIAL else Next(Run(steps[..|steps| - 1]), steps[|steps| - 1])
  }

  // ---------------------------------------------------------------------------------------------
  // The invariant
  // ---------------------------------------------------------------------------------------------

  /** Passes that find the organization within its ceiling between two entries loaded it before the first. */
  ghost predicate OnlyOlderFindWithin(log: seq<Entry>, from: nat, to: nat) {
    forall j :: from < j < to && j < |log| && log[j].Found? && !log[j].over ==> log[j].loaded < from
  }

  /** A pass delivered the notice, about a clock it had run long enough, and recorded it under clock `x`. */
  ghost predicate NoticeBacked(log: seq<Entry>, kind: Notice, at: int, about: int, x: int) {
    && Recorded(kind, at, about, Some(x)) in log && Delivered(kind, at, about) in log
    && (kind == LastDay ==> about + (GRACE_PERIOD_DAYS - 1) * DAY <= at)
  }

  /** What the columns say happened did. */
  ghost predicate RowOk(log: seq<Entry>, row: Row, now: int) {
    row.sub.since.Some? ==>
      && row.from < |log| && log[row.from] == Started(row.sub.since.value) && row.sub.since.value <= now
      && OnlyOlderFindWithin(log, row.from, |log|)
      && (row.sub.notice.Some? ==>
            && row.sub.noticedAt.Some?
            && NoticeBacked(log, row.sub.notice.value, row.sub.noticedAt.value, row.about, row.sub.since.value))
  }

  /** Either the running clock is the one the pass loaded, or it started after the load. */
  ghost predicate KnowsClock(row: Row, p: Pass) {
    row.sub.since.Some? ==>
      p.loaded < row.from || (p.row.sub.since == row.sub.since && p.row.from == row.from)
  }

  ghost predicate StageOk(log: seq<Entry>, p: Pass) {
    && (p.Acting() ==> p.Over())
    && (p.stage.Loaded? ==> Started(p.now) !in log)
    && (p.stage.Announced? ==>
          && Enforces(p.row.sub, p.Clock(), p.now) && p.row.sub.since.Some?
          && Delivered(Notice.Paused, p.now, p.Clock()) in log
          && |p.stage.named| == Min(p.active - p.ceiling.value, p.stage.countThen))
    && (p.stage.Noting? ==>
          && Delivered(p.stage.kind, p.now, p.Clock()) in log
          && Rank(p.row.sub.notice) < Rank(Some(p.stage.kind))
          && (p.stage.kind == LastDay ==> p.Clock() + (GRACE_PERIOD_DAYS - 1) * DAY <= p.now))
  }

  ghost predicate LoadOk(log: seq<Entry>, p: Pass, lastPass: int) {
    && p.loaded < |log| && log[p.loaded] == Began(p.now) && p.now <= lastPass
    && RowOk(log[..p.loaded], p.row, p.now)
    && (p.row.sub.since.Some? ==> p.row.sub.since.value < p.now)
  }

  ghost predicate PassOk(s: State, p: Pass) {
    LoadOk(s.log, p, s.lastPass) && KnowsClock(s.row, p) && StageOk(s.log, p)
  }

  ghost predicate PassesOk(s: State) {
    && (forall i :: 0 <= i < |s.passes| ==> PassOk(s, s.passes[i]))
    && (forall i, j :: 0 <= i < j < |s.passes| ==> s.passes[i].now < s.passes[j].now)
  }

  /** A pass sends and records notices about one clock only. */
  ghost predicate Identified(passes: seq<Pass>, e: Entry) {
    e.Delivered? || e.Recorded? ==>
      exists i :: 0 <= i < |passes| && passes[i].now == e.at && passes[i].Clock() == e.about
  }

  ghost predicate EntriesOk(s: State) {
    && (forall k :: 0 <= k < |s.log| ==> Identified(s.passes, s.log[k]))
    && (forall k :: 0 <= k < |s.log| && s.log[k].Started? ==> s.log[k].at <= s.lastPass)
    && (forall k :: 0 <= k < |s.log| && s.log[k].Recorded? && s.log[k].running.Some? ==>
          Started(s.log[k].running.value) in s.log)
  }

  /** Notices recorded under one clock rise. */
  ghost predicate NoticesRise(log: seq<Entry>) {
    forall i, j :: 0 <= i < j < |log| && log[i].Recorded? && log[j].Recorded?
                   && log[i].running.Some? && log[i].running == log[j].running
      ==> Rank(Some(log[i].kind)) < Rank(Some(log[j].kind))
  }

  /** While they rise, no notice recorded under the running clock outranks the newest. */
  ghost predicate NewestKnown(s: State) {
    NoticesRise(s.log) && s.row.sub.since.Some? ==>
      forall k :: 0 <= k < |s.log| && s.log[k].Recorded? && s.log[k].running == s.row.sub.since ==>
        Rank(Some(s.log[k].kind)) <= Rank(s.row.sub.notice)
  }

  /** What holds of a pause however passes overlap. */
  ghost predicate Earned(log: seq<Entry>, k: nat)
    requires k < |log| && log[k].PausedAt?
  {
    var e := log[k];
    && e.from < e.loaded < k && log[e.from] == Started(e.clock) && log[e.loaded] == Began(e.at)
    && e.clock + GRACE_PERIOD_DAYS * DAY <= e.at && e.warned + DAY <= e.at
    && OnlyOlderFindWithin(log, e.from, e.loaded)
    && exists about :: NoticeBacked(log[..e.loaded], LastDay, e.warned, about, e.clock)
  }

  ghost predicate PausesEarned(log: seq<Entry>) {
    forall k :: 0 <= k < |log| && log[k].PausedAt? ==> Earned(log, k)
  }

  ghost predicate Inv(s: State) {
    && RowOk(s.log, s.row, s.lastPass) && PassesOk(s) && EntriesOk(s) && NewestKnown(s) && PausesEarned(s.log)
    && DistinctIds(s.monitors)
  }

  // The log grows.

  lemma {:induction false} RowOkGrows(log: seq<Entry>, e: Entry, row: Row, now: int, later: int)
    requires RowOk(log, row, now) && now <= later
    requires row.sub.since.Some? && e.Found? && !e.over ==> e.loaded < row.from
    ensures RowOk(log + [e], row, later)
  {}

  lemma {:induction false} LoadOkGrows(log: seq<Entry>, e: Entry, p: Pass, lastPass: int, later: int)
    requires LoadOk(log, p, lastPass) && lastPass <= later
    ensures LoadOk(log + [e], p, later)
  {
    assert (log + [e])[..p.loaded] == log[..p.loaded];
  }

  lemma {:induction false} EarnedGrows(log: seq<Entry>, e: Entry, k: nat)
    requires k < |log| && log[k].PausedAt? && Earned(log, k)
    ensures Earned(log + [e], k)
  {
    var p := log[k];
    assert (log + [e])[..p.loaded] == log[..p.loaded];
    var about :| NoticeBacked(log[..p.loaded], LastDay, p.warned, about, p.clock);
    assert NoticeBacked((log + [e])[..p.loaded], LastDay, p.warned, about, p.clock);
  }

  lemma {:induction false} PausesStayEarned(log: seq<Entry>, e: Entry)
    requires PausesEarned(log) && (e.PausedAt? ==> Earned(log + [e], |log|))
    ensures PausesEarned(log + [e])
  {
    forall k | 0 <= k < |log + [e]| && (log + [e])[k].PausedAt? ensures Earned(log + [e], k) {
      if k < |log| { EarnedGrows(log, e, k); }
    }
  }

  /** An entry that neither starts a clock nor records a notice tells what the passes know. */
  lemma {:induction false} EntriesGrow(s: State, t: State, e: Entry)
    requires EntriesOk(s) && t.log == s.log + [e] && s.lastPass <= t.lastPass
    requires |s.passes| <= |t.passes|
    requires forall i :: 0 <= i < |s.passes| ==>
               t.passes[i].now == s.passes[i].now && t.passes[i].Clock() == s.passes[i].Clock()
    requires Identified(t.passes, e) && (e.Started? ==> e.at <= t.lastPass)
    requires e.Recorded? && e.running.Some? ==> Started(e.running.value) in s.log
    ensures EntriesOk(t)
  {
    forall k | 0 <= k < |t.log| ensures Identified(t.passes, t.log[k]) {
      if k < |s.log| && (s.log[k].Delivered? || s.log[k].Recorded?) {
        assert Identified(s.passes, s.log[k]);
        var i :| 0 <= i < |s.passes| && s.passes[i].now == s.log[k].at && s.passes[i].Clock() == s.log[k].about;
        assert t.passes[i].now == s.log[k].at;
      }
    }
    forall k | 0 <= k < |t.log| && t.log[k].Recorded? && t.log[k].running.Some?
      ensures Started(t.log[k].running.value) in t.log
    {
      if k < |s.log| { assert t.log[k] == s.log[k]; }
    }
  }

  /** No new record, and the running clock and its newest notice are as they were, if one still runs. */
  lemma {:induction false} NewestStaysKnown(s: State, t: State, e: Entry)
    requires NewestKnown(s) && t.log == s.log + [e] && !e.Recorded?
    requires t.row.sub.since.Some? ==> t.row.sub == s.row.sub
    ensures NewestKnown(t)
  {
    if NoticesRise(t.log) && t.row.sub.since.Some? {
      assert NoticesRise(s.log) by {
        forall i, j | 0 <= i < j < |s.log| && s.log[i].Recorded? && s.log[j].Recorded?
                      && s.log[i].running.Some? && s.log[i].running == s.log[j].running
          ensures Rank(Some(s.log[i].kind)) < Rank(Some(s.log[j].kind))
        {
          assert t.log[i] == s.log[i] && t.log[j] == s.log[j];
        }
      }
    }
  }

  /** The passes that did nothing just now. */
  lemma {:induction false} OthersStayOk(s: State, t: State, i: nat, e: Entry)
    requires PassesOk(s) && i < |s.passes| && t.log == s.log + [e] && t.lastPass == s.lastPass
    requires |t.passes| == |s.passes| && t.passes == At(s, i, t.passes[i].stage)
    requires e.Started? ==> e.at == s.passes[i].now
    requires t.row.sub.since.Some? ==>
               (t.row.sub.since == s.row.sub.since && t.row.from == s.row.from) || t.row.from == |s.log|
    requires StageOk(t.log, t.passes[i])
    ensures PassesOk(t)
  {
    forall j | 0 <= j < |t.passes| ensures PassOk(t, t.passes[j]) {
      assert PassOk(s, s.passes[j]);
      LoadOkGrows(s.log, e, s.passes[j], s.lastPass, t.lastPass);
      assert j != i ==> s.passes[j].now != s.passes[i].now;
    }
  }

  // Steps.

  lemma {:induction false} LoadKeepsInv(s: State, now: int)
    requires Inv(s) && now > s.lastPass
    ensures Inv(LoadStep(s, now))
  {
    var t, e := LoadStep(s, now), Began(now);
    RowOkGrows(s.log, e, s.row, s.lastPass, now);
    EntriesGrow(s, t, e);
    NewestStaysKnown(s, t, e);
    PausesStayEarned(s.log, e);
    LoadedPassesOk(s, now);
  }

  lemma {:induction false} LoadedPassesOk(s: State, now: int)
    requires Inv(s) && now > s.lastPass
    ensures PassesOk(LoadStep(s, now))
  {
    var t, e := LoadStep(s, now), Began(now);
    forall j | 0 <= j < |t.passes| ensures PassOk(t, t.passes[j]) && (j < |s.passes| ==> t.passes[j].now < now) {
      if j < |s.passes| {
        assert PassOk(s, s.passes[j]);
        LoadOkGrows(s.log, e, s.passes[j], s.lastPass, now);
      } else {
        assert t.log[..|s.log|] == s.log;
        assert RowOk(s.log, s.row, now);
      }
    }
  }

  lemma {:induction false} FoundWithinKeepsInv(s: State, i: nat)
    requires Inv(s) && Enabled(s, Handle(i)) && !s.passes[i].Over()
    ensures Inv(HandleStep(s, i))
  {
    var t, p := HandleStep(s, i), s.passes[i];
    var e := Found(false, p.loaded, p.row.sub.since.Some?);
    assert PassOk(s, p);
    RowOkGrows(s.log, e, t.row, s.lastPass, s.lastPass);
    OthersStayOk(s, t, i, e);
    EntriesGrow(s, t, e);
    NewestStaysKnown(s, t, e);
    PausesStayEarned(s.log, e);
  }

  /** A pass moves on with an entry that leaves the row alone. */
  lemma {:induction false} MovingOnKeepsInv(s: State, t: State, i: nat, e: Entry)
    requires Inv(s) && i < |s.passes| && t.log == s.log + [e] && t.row == s.row && t.lastPass == s.lastPass
    requires |t.passes| == |s.passes| && t.passes == At(s, i, t.passes[i].stage)
    requires DistinctIds(t.monitors) && StageOk(t.log, t.passes[i])
    requires || (e.Delivered? && e.at == s.passes[i].now && e.about == s.passes[i].Clock())
             || (e.Found? && e.over)
             || (e.PausedAt? && Earned(t.log, |s.log|))
    ensures Inv(t)
  {
    RowOkGrows(s.log, e, s.row, s.lastPass, s.lastPass);
    OthersStayOk(s, t, i, e);
    assert t.passes[i].now == s.passes[i].now && t.passes[i].Clock() == s.passes[i].Clock();
    EntriesGrow(s, t, e);
    NewestStaysKnown(s, t, e);
    PausesStayEarned(s.log, e);
  }

  lemma {:induction false} FoundOverKeepsInv(s: State, i: nat)
    requires Inv(s) && Enabled(s, Handle(i)) && s.passes[i].Over() && s.passes[i].row.sub.since.Some?
    ensures Inv(HandleStep(s, i))
  {
    assert PassOk(s, s.passes[i]);
    MovingOnKeepsInv(s, HandleStep(s, i), i, Found(true, s.passes[i].loaded, true));
  }

  /** The clock's start, before the finding that follows it in the log. */
  function StartedState(s: State, i: nat): State
    requires i < |s.passes|
  {
    s.(log := s.log + [Started(s.passes[i].now)], passes := At(s, i, Deciding),
       row := Row(Sub(Some(s.passes[i].now), None, None), |s.log|, s.passes[i].now))
  }

  lemma {:induction false} StartKeepsInv(s: State, i: nat)
    requires Inv(s) && Enabled(s, Handle(i)) && s.passes[i].Over() && s.passes[i].row.sub.since.None?
    ensures Inv(StartedState(s, i))
  {
    var t, p := StartedState(s, i), s.passes[i];
    var e := Started(p.now);
    assert PassOk(s, p);
    OthersStayOk(s, t, i, e);
    EntriesGrow(s, t, e);
    PausesStayEarned(s.log, e);
    assert Started(p.now) !in s.log;
    forall k | 0 <= k < |s.log| && s.log[k].Recorded? ensures s.log[k].running != t.row.sub.since {}
  }

  lemma {:induction false} StartedThenFound(s: State, i: nat)
    requires Inv(s) && Enabled(s, Handle(i)) && s.passes[i].Over() && s.passes[i].row.sub.since.None?
    ensures Inv(HandleStep(s, i))
  {
    var m, t := StartedState(s, i), HandleStep(s, i);
    StartKeepsInv(s, i);
    assert t.log == m.log + [Found(true, s.passes[i].loaded, false)];
    assert PassOk(m, m.passes[i]);
    assert t.passes == At(m, i, t.passes[i].stage);
    MovingOnKeepsInv(m, t, i, Found(true, s.passes[i].loaded, false));
  }

  /** A step that appends nothing and moves one pass on to a stage of which nothing is asked. */
  lemma {:induction false} StoppedIdentify(s: State, i: nat)
    requires EntriesOk(s) && i < |s.passes|
    ensures EntriesOk(s.(passes := At(s, i, Done)))
  {
    var passes := At(s, i, Done);
    forall k | 0 <= k < |s.log| ensures Identified(passes, s.log[k]) {
      assert Identified(s.passes, s.log[k]);
      if s.log[k].Delivered? || s.log[k].Recorded? {
        var j :| 0 <= j < |s.passes| && s.passes[j].now == s.log[k].at && s.passes[j].Clock() == s.log[k].about;
        assert passes[j].now == s.log[k].at;
      }
    }
  }

  lemma {:induction false} StoppingKeepsInv(s: State, i: nat)
    requires Inv(s) && i < |s.passes|
    ensures Inv(s.(passes := At(s, i, Done)))
  {
    var t := s.(passes := At(s, i, Done));
    forall j | 0 <= j < |t.passes| ensures PassOk(t, t.passes[j]) { assert PassOk(s, s.passes[j]); }
    StoppedIdentify(s, i);
  }

  lemma {:induction false} NamedCount(ms: seq<Monitor>, n: nat)
    requires DistinctIds(ms)
    ensures |NewestActive(ms, n)| == Min(n, ActiveCount(ms))
  {
    if ms != [] && n > 0 {
      var m, rest := ms[|ms| - 1], ms[..|ms| - 1];
      var fewer := if m.active then n - 1 else n;
      NamedCount(rest, fewer);
      if m.active && m.id in NewestActive(rest, fewer) {
        NamedAreListed(rest, fewer, m.id);
      }
    }
  }

  lemma {:induction false} DecidedIsOk(s: State, i: nat)
    requires Enabled(s, Decide(i, true)) && StageOk(s.log, s.passes[i]) && DistinctIds(s.monitors)
    ensures var t := DecideStep(s, i, true); t.log != s.log ==> StageOk(t.log, t.passes[i])
  {
    var p := s.passes[i];
    NamedCount(s.monitors, p.active - p.ceiling.value);
  }

  lemma {:induction false} DecideKeepsInv(s: State, i: nat, delivered: bool)
    requires Inv(s) && Enabled(s, Decide(i, delivered))
    ensures Inv(DecideStep(s, i, delivered))
  {
    var t := DecideStep(s, i, delivered);
    if t.log == s.log {
      StoppingKeepsInv(s, i);
    } else {
      assert PassOk(s, s.passes[i]);
      DecidedIsOk(s, i);
      MovingOnKeepsInv(s, t, i, t.log[|s.log|]);
    }
  }

  lemma {:induction false} PauseIsEarned(s: State, i: nat)
    requires Enabled(s, Pause(i)) && LoadOk(s.log, s.passes[i], s.lastPass) && StageOk(s.log, s.passes[i])
    ensures Earned(PauseStep(s, i).log, |s.log|)
  {
    var t, p := PauseStep(s, i), s.passes[i];
    var loaded := s.log[..p.loaded];
    assert t.log[..p.loaded] == loaded;
    assert NoticeBacked(t.log[..p.loaded], LastDay, p.row.sub.noticedAt.value, p.row.about, p.Clock());
    assert loaded[p.row.from] == t.log[p.row.from];
    forall j | p.row.from < j < p.loaded && t.log[j].Found? && !t.log[j].over ensures t.log[j].loaded < p.row.from {
      assert loaded[j] == t.log[j];
    }
  }

  lemma {:induction false} NamedKeepsIds(ms: seq<Monitor>, ids: set<nat>, now: int)
    requires DistinctIds(ms)
    ensures DistinctIds(PauseNamed(ms, ids, now))
  {}

  lemma {:induction false} PausedIsOk(s: State, i: nat)
    requires Enabled(s, Pause(i)) && StageOk(s.log, s.passes[i])
    ensures StageOk(PauseStep(s, i).log, PauseStep(s, i).passes[i])
  {
    var p := s.passes[i];
    var k :| 0 <= k < |s.log| && s.log[k] == Delivered(Notice.Paused, p.now, p.Clock());
    assert PauseStep(s, i).log[k] == s.log[k];
  }

  lemma {:induction false} PauseKeepsInv(s: State, i: nat)
    requires Inv(s) && Enabled(s, Pause(i))
    ensures Inv(PauseStep(s, i))
  {
    var t := PauseStep(s, i);
    assert PassOk(s, s.passes[i]);
    PauseIsEarned(s, i);
    PausedIsOk(s, i);
    NamedKeepsIds(s.monitors, s.passes[i].stage.named, s.passes[i].now);
    MovingOnKeepsInv(s, t, i, t.log[|s.log|]);
  }

  /** The guard the write of a notice lacks: under a running clock, the notice outranks the newest. */
  predicate Outranks(s: State, i: nat) {
    i < |s.passes| && s.passes[i].stage.Noting? && s.row.sub.since.Some? ==>
      Rank(s.row.sub.notice) < Rank(Some(s.passes[i].stage.kind))
  }

  lemma {:induction false} OutrankedRises(s: State, i: nat)
    requires NewestKnown(s) && Enabled(s, Note(i)) && NoticesRise(s.log) && Outranks(s, i)
    ensures NoticesRise(NoteStep(s, i).log)
  {
    var t, n := NoteStep(s, i), |s.log|;
    forall k | 0 <= k < n ensures t.log[k] == s.log[k] {}
  }

  lemma {:induction false} RisenOutranks(s: State, i: nat)
    requires RowOk(s.log, s.row, s.lastPass) && Enabled(s, Note(i)) && NoticesRise(NoteStep(s, i).log)
    ensures Outranks(s, i)
  {
    var t, n := NoteStep(s, i), |s.log|;
    if s.row.sub.since.Some? && s.row.sub.notice.Some? {
      var newest := Recorded(s.row.sub.notice.value, s.row.sub.noticedAt.value, s.row.about, s.row.sub.since);
      var k :| 0 <= k < n && s.log[k] == newest;
      assert t.log[k] == newest && t.log[n].Recorded? && t.log[n].running == s.row.sub.since;
    }
  }

  /** A record keeps the notices rising exactly when it outranks the newest under the running clock. */
  lemma {:induction false} NoteRisesExactlyWhen(s: State, i: nat)
    requires Inv(s) && Enabled(s, Note(i)) && NoticesRise(s.log)
    ensures NoticesRise(NoteStep(s, i).log) <==> Outranks(s, i)
  {
    if Outranks(s, i) { OutrankedRises(s, i); }
    if NoticesRise(NoteStep(s, i).log) { RisenOutranks(s, i); }
  }

  lemma {:induction false} NoteKnowsNewest(s: State, i: nat)
    requires Inv(s) && Enabled(s, Note(i))
    ensures NewestKnown(NoteStep(s, i))
  {
    var t, n := NoteStep(s, i), |s.log|;
    if NoticesRise(t.log) && t.row.sub.since.Some? {
      forall k | 0 <= k < |t.log| && t.log[k].Recorded? && t.log[k].running == t.row.sub.since
        ensures Rank(Some(t.log[k].kind)) <= Rank(t.row.sub.notice)
      {
        assert k < n ==> t.log[k].Recorded? && t.log[n].Recorded? && t.log[k].running == t.log[n].running;
      }
    }
  }

  lemma {:induction false} NotedRowOk(s: State, i: nat)
    requires Enabled(s, Note(i)) && RowOk(s.log, s.row, s.lastPass) && StageOk(s.log, s.passes[i])
    ensures RowOk(NoteStep(s, i).log, NoteStep(s, i).row, s.lastPass)
  {
    var t, p := NoteStep(s, i), s.passes[i];
    if t.row.sub.since.Some? {
      var k :| 0 <= k < |s.log| && s.log[k] == Delivered(p.stage.kind, p.now, p.Clock());
      assert t.log[k] == s.log[k];
      assert t.log[|s.log|] == Recorded(p.stage.kind, p.now, p.Clock(), t.row.sub.since);
      assert NoticeBacked(t.log, p.stage.kind, p.now, p.Clock(), t.row.sub.since.value);
    }
  }

  lemma {:induction false} NoteKeepsInv(s: State, i: nat)
    requires Inv(s) && Enabled(s, Note(i))
    ensures Inv(NoteStep(s, i))
  {
    var t, p := NoteStep(s, i), s.passes[i];
    var e := t.log[|s.log|];
    assert PassOk(s, p);
    NoteKnowsNewest(s, i);
    NotedRowOk(s, i);
    OthersStayOk(s, t, i, e);
    if s.row.sub.since.Some? { assert s.log[s.row.from] == Started(s.row.sub.since.value); }
    assert t.passes[i].now == e.at && t.passes[i].Clock() == e.about;
    EntriesGrow(s, t, e);
    PausesStayEarned(s.log, e);
  }

  lemma {:induction false} ClearKeepsInv(s: State)
    requires Inv(s) && s.row.sub.since.Some?
    ensures Inv(Next(s, Clear))
  {
    var t := Next(s, Clear);
    EntriesGrow(s, t, Reset);
    NewestStaysKnown(s, t, Reset);
    PausesStayEarned(s.log, Reset);
    forall j | 0 <= j < |t.passes| ensures PassOk(t, t.passes[j]) {
      assert PassOk(s, s.passes[j]);
      LoadOkGrows(s.log, Reset, s.passes[j], s.lastPass, s.lastPass);
    }
  }

  /** Customers and ceilings touch neither the log nor the passes. */
  lemma {:induction false} CustomersKeepInv(s: State, step: Step)
    requires Inv(s) && (step.Customer? || step.Ceiling?)
    ensures Inv(Next(s, step))
  {
    var t := Next(s, step);
    forall j | 0 <= j < |t.passes| ensures PassOk(t, t.passes[j]) { assert PassOk(s, s.passes[j]); }
  }

  lemma {:induction false} HandleKeepsInv(s: State, i: nat)
    requires Inv(s) && Enabled(s, Handle(i))
    ensures Inv(HandleStep(s, i))
  {
    if !s.passes[i].Over() { FoundWithinKeepsInv(s, i); }
    else if s.passes[i].row.sub.since.Some? { FoundOverKeepsInv(s, i); }
    else { StartedThenFound(s, i); }
  }

  lemma {:induction false} StepKeepsInv(s: State, step: Step)
    requires Inv(s)
    ensures Inv(Next(s, step))
  {
    if Enabled(s, step) {
      match step {
        case Load(now) => LoadKeepsInv(s, now);
        case Handle(i) => HandleKeepsInv(s, i);
        case Decide(i, delivered) => DecideKeepsInv(s, i, delivered);
        case Pause(i) => PauseKeepsInv(s, i);
        case Note(i) => NoteKeepsInv(s, i);
        case Abandon(i) => StoppingKeepsInv(s, i);
        case Clear => if s.row.sub.since.Some? { ClearKeepsInv(s); }
        case _ => CustomersKeepInv(s, step);
      }
    }
  }

  lemma {:induction false} RunsAreSound(steps: seq<Step>)
    ensures Inv(Run(steps))
  {
    if steps != [] {
      RunsAreSound(steps[..|steps| - 1]);
      StepKeepsInv(Run(steps[..|steps| - 1]), steps[|steps| - 1]);
    }
  }

  // ---------------------------------------------------------------------------------------------
  // What holds over every history, however passes overlap
  // ---------------------------------------------------------------------------------------------

  /**
   * Whatever customers do between steps, wherever passes fail and however they overlap, a capacity pause
   * comes 14 days or more after its clock started and a day or more after a last warning was delivered
   * and recorded under that clock, and between the clock's start and the pass's load the organization was
   * found within its ceiling only by passes that had loaded it before the clock started.
   */
  lemma {:induction false} PausesAreEarned(steps: seq<Step>, k: nat)
    requires k < |Run(steps).log| && Run(steps).log[k].PausedAt?
    ensures Earned(Run(steps).log, k)
  {
    RunsAreSound(steps);
  }

  /**
   * What the customer is promised of a pause: every pass since its clock started found the organization above its
   * ceiling, and the last warning about that very clock was delivered 13 days in, a day before the pause.
   */
  ghost predicate Justified(log: seq<Entry>, k: nat)
    requires k < |log| && log[k].PausedAt?
  {
    var e := log[k];
    && e.clock + GRACE_PERIOD_DAYS * DAY <= e.at
    && (forall j :: e.from < j < k && log[j].Found? ==> log[j].over)
    && Delivered(LastDay, e.warned, e.clock) in log[..k]
    && e.clock + (GRACE_PERIOD_DAYS - 1) * DAY <= e.warned <= e.at - DAY
  }

  /**
   * What an overlapping pass can do to it: record its warning about one clock under another, or find the organization
   * within its ceiling on a load from before the clock started, or after the pausing pass loaded.
   */
  ghost predicate Disturbed(log: seq<Entry>, k: nat)
    requires k < |log| && log[k].PausedAt?
  {
    var e := log[k];
    || (exists j :: 0 <= j < k && log[j].Recorded? && log[j].kind == LastDay && log[j].at == e.warned
                    && log[j].running == Some(e.clock) && log[j].about != e.clock)
    || (exists j :: e.from < j < k && log[j].Found? && !log[j].over && (log[j].loaded < e.from || e.loaded < j))
  }

  /** Notices one pass delivers or records are about one clock. */
  lemma {:induction false} OneClockEach(s: State, a: Entry, b: Entry)
    requires PassesOk(s) && EntriesOk(s) && a in s.log && b in s.log
    requires (a.Delivered? || a.Recorded?) && (b.Delivered? || b.Recorded?)
    requires a.at == b.at
    ensures a.about == b.about
  {
    var j, k :| 0 <= j < |s.log| && s.log[j] == a && 0 <= k < |s.log| && s.log[k] == b;
    assert Identified(s.passes, s.log[j]) && Identified(s.passes, s.log[k]);
  }

  lemma {:induction false} UndisturbedIsJustified(log: seq<Entry>, k: nat)
    requires k < |log| && log[k].PausedAt? && Earned(log, k) && !Disturbed(log, k)
    ensures Justified(log, k)
  {
    var e := log[k];
    var about :| NoticeBacked(log[..e.loaded], LastDay, e.warned, about, e.clock);
    var r :| 0 <= r < e.loaded && log[..e.loaded][r] == Recorded(LastDay, e.warned, about, Some(e.clock));
    var d :| 0 <= d < e.loaded && log[..e.loaded][d] == Delivered(LastDay, e.warned, about);
    assert log[r].Recorded? && log[r].about == e.clock;
    assert log[..k][d] == Delivered(LastDay, e.warned, e.clock);
  }

  /** The promise holds of a pause exactly when no overlapping pass disturbed it. */
  lemma {:induction false} PausesAreJustifiedExactlyWhen(steps: seq<Step>, k: nat)
    requires k < |Run(steps).log| && Run(steps).log[k].PausedAt?
    ensures Justified(Run(steps).log, k) <==> !Disturbed(Run(steps).log, k)
  {
    RunsAreSound(steps);
    var s := Run(steps);
    if Justified(s.log, k) { JustifiedIsUndisturbed(s, k); }
    if !Disturbed(s.log, k) { UndisturbedIsJustified(s.log, k); }
  }

  lemma {:induction false} JustifiedIsUndisturbed(s: State, k: nat)
    requires Inv(s) && k < |s.log| && s.log[k].PausedAt? && Justified(s.log, k)
    ensures !Disturbed(s.log, k)
  {
    var log, e := s.log, s.log[k];
    var d :| 0 <= d < k && log[..k][d] == Delivered(LastDay, e.warned, e.clock);
    forall j | 0 <= j < k && log[j].Recorded? && log[j].at == e.warned ensures log[j].about == e.clock {
      OneClockEach(s, log[j], log[d]);
    }
  }

  /** Whether each record of the run outranked the newest notice under its clock. */
  predicate RecordsOutrank(steps: seq<Step>) {
    steps != [] ==>
      var n := |steps| - 1;
      RecordsOutrank(steps[..n]) && (steps[n].Note? ==> Outranks(Run(steps[..n]), steps[n].pass))
  }

  lemma {:induction false} RiseOfPrefix(log: seq<Entry>, more: seq<Entry>)
    requires NoticesRise(log + more)
    ensures NoticesRise(log)
  {
    forall i, j | 0 <= i < j < |log| && log[i].Recorded? && log[j].Recorded?
                  && log[i].running.Some? && log[i].running == log[j].running
      ensures Rank(Some(log[i].kind)) < Rank(Some(log[j].kind))
    {
      assert (log + more)[i] == log[i] && (log + more)[j] == log[j];
    }
  }

  lemma {:induction false} LogGrows(s: State, step: Step) returns (more: seq<Entry>)
    ensures Next(s, step).log == s.log + more
    ensures !(Enabled(s, step) && step.Note?) ==> forall e :: e in more ==> !e.Recorded?
  {
    more := Next(s, step).log[|s.log|..];
  }

  lemma {:induction false} NoRecordKeepsRise(log: seq<Entry>, more: seq<Entry>)
    requires NoticesRise(log) && forall e :: e in more ==> !e.Recorded?
    ensures NoticesRise(log + more)
  {
    var all := log + more;
    forall k | |log| <= k < |all| ensures !all[k].Recorded? { assert all[k] == more[k - |log|]; }
  }

  /**
   * Under one clock no notice is recorded twice, and none after a graver one, exactly when each record
   * outranks the newest.
   */
  lemma {:induction false} NoticesEscalateExactlyWhen(steps: seq<Step>)
    ensures NoticesRise(Run(steps).log) <==> RecordsOutrank(steps)
  {
    if steps != [] {
      var n := |steps| - 1;
      var s, step := Run(steps[..n]), steps[n];
      NoticesEscalateExactlyWhen(steps[..n]);
      RunsAreSound(steps[..n]);
      var more := LogGrows(s, step);
      if NoticesRise(Next(s, step).log) { RiseOfPrefix(s.log, more); }
      if NoticesRise(s.log) {
        if Enabled(s, step) && step.Note? { NoteRisesExactlyWhen(s, step.pass); }
        else { NoRecordKeepsRise(s.log, more); }
      }
    }
  }

  // ---------------------------------------------------------------------------------------------
  // What the row tells at the pause
  // ---------------------------------------------------------------------------------------------

  /** What ends a clock: a pass that loaded one and found the organization within, a customer's check, another start. */
  predicate Breaks(e: Entry) {
    (e.Found? && !e.over && e.clocked) || e.Reset? || e.Started?
  }

  ghost predicate Unbroken(log: seq<Entry>, from: nat) {
    forall j :: from < j < |log| ==> !Breaks(log[j])
  }

  ghost predicate StartedOnce(log: seq<Entry>) {
    forall j, k :: 0 <= j < k < |log| && log[j].Started? && log[k].Started? ==> log[j].at != log[k].at
  }

  /** The clock that runs is unbroken, and a clock that is unbroken runs. */
  ghost predicate ClockTold(log: seq<Entry>, row: Row) {
    && (row.sub.since.Some? ==> Unbroken(log, row.from))
    && (forall f :: 0 <= f < |log| && log[f].Started? && Unbroken(log, f) ==>
          row.sub.since == Some(log[f].at) && row.from == f)
  }

  lemma {:induction false} QuietEntry(log: seq<Entry>, e: Entry, row: Row, after: Row)
    requires ClockTold(log, row) && !Breaks(e) && after.sub.since == row.sub.since && after.from == row.from
    ensures ClockTold(log + [e], after)
  {
    var all := log + [e];
    forall f | 0 <= f < |all| && all[f].Started? && Unbroken(all, f)
      ensures after.sub.since == Some(all[f].at) && after.from == f
    {
      forall j | f < j < |log| ensures !Breaks(log[j]) { assert all[j] == log[j]; }
      assert Unbroken(log, f) && log[f] == all[f];
    }
  }

  lemma {:induction false} BreakingEntry(log: seq<Entry>, e: Entry, after: Row)
    requires Breaks(e) && !e.Started? && after.sub.since.None?
    ensures ClockTold(log + [e], after)
  {
    var all := log + [e];
    forall f | 0 <= f < |log| ensures !Unbroken(all, f) { assert Breaks(all[|log|]); }
  }

  lemma {:induction false} StartingEntry(log: seq<Entry>, e: Entry, after: Row)
    requires e.Started? && after.sub.since == Some(e.at) && after.from == |log|
    ensures ClockTold(log + [e], after)
  {
    var all := log + [e];
    forall f | 0 <= f < |log| ensures !Unbroken(all, f) { assert Breaks(all[|log|]); }
  }

  ghost predicate ClockInv(s: State) {
    ClockTold(s.log, s.row) && StartedOnce(s.log)
  }

  lemma {:induction false} HandleTellsClock(s: State, i: nat)
    requires ClockInv(s) && Enabled(s, Handle(i)) && StageOk(s.log, s.passes[i])
    ensures ClockInv(HandleStep(s, i))
  {
    var t, p := HandleStep(s, i), s.passes[i];
    if !p.Over() {
      var e := t.log[|s.log|];
      if p.row.sub.since.Some? { BreakingEntry(s.log, e, t.row); } else { QuietEntry(s.log, e, s.row, t.row); }
    } else if p.row.sub.since.Some? {
      QuietEntry(s.log, t.log[|s.log|], s.row, t.row);
    } else {
      StartingEntry(s.log, Started(p.now), t.row);
      var started := s.log + [Started(p.now)];
      QuietEntry(started, Found(true, p.loaded, false), t.row, t.row);
      assert t.log == started + [Found(true, p.loaded, false)];
    }
  }

  lemma {:induction false} OthersTellClock(s: State, step: Step)
    requires ClockInv(s) && Enabled(s, step) && !step.Handle?
    ensures ClockInv(Next(s, step))
  {
    var t := Next(s, step);
    if t.log != s.log {
      var e := t.log[|s.log|];
      assert t.log == s.log + [e];
      if step.Clear? { BreakingEntry(s.log, e, t.row); } else { QuietEntry(s.log, e, s.row, t.row); }
    }
  }

  lemma {:induction false} RunsTellClock(steps: seq<Step>)
    ensures ClockInv(Run(steps))
  {
    if steps != [] {
      var s, step := Run(steps[..|steps| - 1]), steps[|steps| - 1];
      RunsTellClock(steps[..|steps| - 1]);
      RunsAreSound(steps[..|steps| - 1]);
      if Enabled(s, step) {
        if step.Handle? {
          ActingIsOk(s, step.pass);
          HandleTellsClock(s, step.pass);
        } else {
          OthersTellClock(s, step);
        }
      }
    }
  }

  lemma {:induction false} SameClockSameStart(s: State, p: Pass)
    requires RowOk(s.log, s.row, s.lastPass) && StartedOnce(s.log)
    requires LoadOk(s.log, p, s.lastPass) && KnowsClock(s.row, p)
    requires s.row.sub.since.Some? && s.row.sub.since == p.row.sub.since
    ensures s.row.from == p.row.from
  {
    var x := p.row.sub.since.value;
    assert s.log[..p.loaded][p.row.from] == s.log[p.row.from] == Started(x);
    assert s.log[s.row.from] == Started(x);
  }

  /**
   * A test of the row that a pass could make as it pauses: does the clock it loaded still run? It does exactly when,
   * since that clock started, no pass that had loaded a clock found the organization within its ceiling, no
   * customer's check ended the clock, and no other clock started. And while it does, the only passes that
   * found the organization within its ceiling since then had loaded it before the clock started.
   */
  lemma {:induction false} ClockRunsOnExactlyWhen(steps: seq<Step>, s: State, i: nat)
    requires s == Run(steps) && i < |s.passes| && s.passes[i].row.sub.since.Some?
    ensures var p := s.passes[i];
            && (s.row.sub.since == p.row.sub.since <==> Unbroken(s.log, p.row.from))
            && (s.row.sub.since == p.row.sub.since ==> OnlyOlderFindWithin(s.log, p.row.from, |s.log|))
  {
    RunsAreSound(steps);
    RunsTellClock(steps);
    var p := s.passes[i];
    assert PassOk(s, p);
    assert s.log[..p.loaded][p.row.from] == s.log[p.row.from];
    if s.row.sub.since == p.row.sub.since { SameClockSameStart(s, p); }
  }

  /**
   * So had the pass made that test, its pause would have broken the promise only through passes that had loaded
   * the organization before the clock started, or a warning recorded under a clock it was not about.
   */
  lemma {:induction false} TestedPauses(steps: seq<Step>, s: State, i: nat)
    requires s == Run(steps) && Enabled(s, Pause(i)) && s.row.sub.since == s.passes[i].row.sub.since
    ensures var log, k := Next(s, Pause(i)).log, |s.log|;
            && log[k].PausedAt?
            && (forall j :: log[k].from < j < k && log[j].Found? && log[j].loaded > log[k].from ==> log[j].over)
  {
    RunsAreSound(steps);
    ActingIsOk(s, i);
    ClockRunsOnExactlyWhen(steps, s, i);
  }

  // ---------------------------------------------------------------------------------------------
  // When each notice goes out
  // ---------------------------------------------------------------------------------------------

  /** A notice that went out `elapsed` after its clock started: the weeks and days its text speaks of. */
  ghost predicate InTime(kind: Notice, elapsed: int) {
    match kind
    case Over => elapsed < 7 * 86_400_000
    case Week => 7 * 86_400_000 <= elapsed < 13 * 86_400_000
    case LastDay => 13 * 86_400_000 <= elapsed
    case Paused => 14 * 86_400_000 <= elapsed
  }

  ghost predicate NoticesInTime(log: seq<Entry>) {
    && (forall k :: 0 <= k < |log| && log[k].Delivered? ==> InTime(log[k].kind, log[k].at - log[k].about))
    && (forall k :: 0 <= k < |log| && log[k].Recorded? ==> InTime(log[k].kind, log[k].at - log[k].about))
  }

  lemma {:induction false} TimesGrow(log: seq<Entry>, e: Entry)
    requires NoticesInTime(log)
    requires e.Delivered? || e.Recorded? ==> InTime(e.kind, e.at - e.about)
    ensures NoticesInTime(log + [e])
  {}

  lemma {:induction false} DecisionsInTime(s: State, i: nat, delivered: bool)
    requires NoticesInTime(s.log) && i < |s.passes|
    ensures NoticesInTime(DecideStep(s, i, delivered).log)
  {
    var t := DecideStep(s, i, delivered);
    if t.log != s.log { TimesGrow(s.log, t.log[|s.log|]); }
  }

  lemma {:induction false} NotesInTime(s: State, i: nat)
    requires NoticesInTime(s.log) && Enabled(s, Note(i)) && StageOk(s.log, s.passes[i])
    ensures NoticesInTime(NoteStep(s, i).log)
  {
    var t, p := NoteStep(s, i), s.passes[i];
    var k :| 0 <= k < |s.log| && s.log[k] == Delivered(p.stage.kind, p.now, p.Clock());
    TimesGrow(s.log, t.log[|s.log|]);
  }

  lemma {:induction false} OthersKeepTimes(s: State, step: Step)
    requires NoticesInTime(s.log) && Enabled(s, step) && !step.Decide? && !step.Note?
    ensures NoticesInTime(Next(s, step).log)
  {
    var t := Next(s, step);
    if |t.log| == |s.log| + 1 {
      TimesGrow(s.log, t.log[|s.log|]);
    } else if |t.log| == |s.log| + 2 {
      TimesGrow(s.log, t.log[|s.log|]);
      TimesGrow(s.log + [t.log[|s.log|]], t.log[|s.log| + 1]);
      assert t.log == s.log + [t.log[|s.log|]] + [t.log[|s.log| + 1]];
    }
  }

  lemma {:induction false} StepKeepsTimes(s: State, step: Step)
    requires NoticesInTime(s.log) && PassesOk(s)
    ensures NoticesInTime(Next(s, step).log)
  {
    if Enabled(s, step) {
      if step.Decide? {
        DecisionsInTime(s, step.pass, step.delivered);
      } else if step.Note? {
        assert PassOk(s, s.passes[step.pass]);
        NotesInTime(s, step.pass);
      } else {
        OthersKeepTimes(s, step);
      }
    }
  }

  /**
   * However passes overlap, the first warning goes out and is recorded within a week of its clock's start, the
   * week's warning a week to a day before the 14 days are over, the last in their last day or later, and the notice
   * of a pause after them.
   */
  lemma {:induction false} NoticesComeInTime(steps: seq<Step>)
    ensures NoticesInTime(Run(steps).log)
  {
    if steps != [] {
      NoticesComeInTime(steps[..|steps| - 1]);
      RunsAreSound(steps[..|steps| - 1]);
      StepKeepsTimes(Run(steps[..|steps| - 1]), steps[|steps| - 1]);
    }
  }

  // ---------------------------------------------------------------------------------------------
  // Passes that never overlap keep both promises
  // ---------------------------------------------------------------------------------------------

  predicate AllDone(passes: seq<Pass>) {
    forall i :: 0 <= i < |passes| ==> passes[i].stage.Done?
  }

  /** Every pass begins after the one before it is done. */
  predicate Lone(steps: seq<Step>) {
    steps != [] ==>
      var n := |steps| - 1;
      Lone(steps[..n]) && (steps[n].Load? ==> AllDone(Run(steps[..n]).passes))
  }

  /** Nobody found the organization within its ceiling since the clock started, and its notice is about it. */
  ghost predicate LoneRow(log: seq<Entry>, row: Row) {
    row.sub.since.Some? ==>
      && (forall j :: row.from < j < |log| && log[j].Found? ==> log[j].over)
      && (row.sub.notice.Some? ==> row.about == row.sub.since.value)
  }

  ghost predicate LonePass(s: State, p: Pass) {
    && LoneRow(s.log, p.row)
    && (s.row.sub.since.Some? ==>
          if p.stage.Loaded? then s.row == p.row
          else s.row.sub.since == Some(p.Clock()) && (s.row == p.row || s.row.sub.notice.None?))
  }

  /** Records are about the clock they fell under, and nobody disturbed a pause. */
  ghost predicate LoneEntries(log: seq<Entry>) {
    && (forall k :: 0 <= k < |log| && log[k].Recorded? && log[k].running.Some? ==> log[k].about == log[k].running.value)
    && (forall k :: 0 <= k < |log| && log[k].PausedAt? ==> !Disturbed(log, k))
  }

  ghost predicate LonePasses(s: State) {
    && (forall i :: 0 <= i < |s.passes| - 1 ==> s.passes[i].stage.Done?)
    && (s.passes != [] && !s.passes[|s.passes| - 1].stage.Done? ==> LonePass(s, s.passes[|s.passes| - 1]))
  }

  ghost predicate LoneOk(s: State) {
    LonePasses(s) && LoneRow(s.log, s.row) && LoneEntries(s.log)
  }

  lemma {:induction false} LoneRowGrows(log: seq<Entry>, e: Entry, row: Row)
    requires LoneRow(log, row) && (row.sub.since.Some? && e.Found? ==> e.over)
    ensures LoneRow(log + [e], row)
  {}

  lemma {:induction false} LoneEntriesGrow(log: seq<Entry>, e: Entry)
    requires LoneEntries(log)
    requires e.Recorded? && e.running.Some? ==> e.about == e.running.value
    requires e.PausedAt? ==> forall j :: e.from < j < |log| && log[j].Found? ==> log[j].over
    ensures LoneEntries(log + [e])
  {
    var all := log + [e];
    forall j | 0 <= j < |log| ensures all[j] == log[j] {}
    forall k | 0 <= k < |all| && all[k].PausedAt? ensures !Disturbed(all, k) {
      assert k < |log| ==> !Disturbed(log, k);
    }
  }

  /** Only the newest pass can be under way, and it moves on with an entry that leaves the row alone. */
  lemma {:induction false} LoneMoves(s: State, t: State, i: nat, e: Entry)
    requires LoneOk(s) && i < |s.passes| && !s.passes[i].stage.Done? && !s.passes[i].stage.Loaded?
    requires t.log == s.log + [e] && t.row == s.row
    requires |t.passes| == |s.passes| && t.passes == At(s, i, t.passes[i].stage) && !t.passes[i].stage.Loaded?
    requires (e.Found? ==> e.over) && !e.Recorded?
    requires e.PausedAt? ==> s.passes[i].row.sub.since.Some? && e.from == s.passes[i].row.from
    ensures LoneOk(t)
  {
    LoneEntriesGrow(s.log, e);
    LoneRowGrows(s.log, e, s.row);
    LoneRowGrows(s.log, e, s.passes[i].row);
  }

  lemma {:induction false} LoneLoad(s: State, now: int)
    requires LoneOk(s) && AllDone(s.passes)
    ensures LoneOk(LoadStep(s, now))
  {
    LoneEntriesGrow(s.log, Began(now));
    LoneRowGrows(s.log, Began(now), s.row);
  }

  lemma {:induction false} LoneHandle(s: State, i: nat)
    requires LoneOk(s) && Enabled(s, Handle(i))
    ensures LoneOk(HandleStep(s, i))
  {
    var t, p := HandleStep(s, i), s.passes[i];
    if p.Over() && p.row.sub.since.None? {
      LoneEntriesGrow(s.log, Started(p.now));
      LoneRowGrows(s.log, Started(p.now), p.row);
      var started := s.log + [Started(p.now)];
      assert t.log == started + [Found(true, p.loaded, false)];
      LoneEntriesGrow(started, Found(true, p.loaded, false));
      LoneRowGrows(started, Found(true, p.loaded, false), p.row);
    } else {
      var e := t.log[|s.log|];
      LoneEntriesGrow(s.log, e);
      LoneRowGrows(s.log, e, t.row);
      if p.Over() { LoneRowGrows(s.log, e, p.row); }
    }
  }

  lemma {:induction false} LoneDecide(s: State, i: nat, delivered: bool)
    requires LoneOk(s) && Enabled(s, Decide(i, delivered))
    ensures LoneOk(DecideStep(s, i, delivered))
  {
    var t := DecideStep(s, i, delivered);
    if t.log != s.log { LoneMoves(s, t, i, t.log[|s.log|]); }
  }

  lemma {:induction false} LonePause(s: State, i: nat)
    requires LoneOk(s) && Enabled(s, Pause(i)) && s.passes[i].row.sub.since.Some?
    ensures LoneOk(PauseStep(s, i))
  {
    var t := PauseStep(s, i);
    LoneMoves(s, t, i, t.log[|s.log|]);
  }

  lemma {:induction false} LoneNote(s: State, i: nat)
    requires LoneOk(s) && Enabled(s, Note(i)) && StageOk(s.log, s.passes[i])
    ensures LoneOk(NoteStep(s, i)) && Outranks(s, i)
  {
    var t := NoteStep(s, i);
    assert LonePass(s, s.passes[i]);
    LoneEntriesGrow(s.log, t.log[|s.log|]);
    LoneRowGrows(s.log, t.log[|s.log|], s.row);
  }

  lemma {:induction false} ActingIsOk(s: State, i: nat)
    requires Inv(s) && i < |s.passes|
    ensures StageOk(s.log, s.passes[i]) && (s.passes[i].stage.Announced? ==> s.passes[i].row.sub.since.Some?)
  {
    assert PassOk(s, s.passes[i]);
  }

  lemma {:induction false} LoneOthers(s: State, step: Step)
    requires LoneOk(s) && Enabled(s, step) && (step.Abandon? || step.Clear? || step.Customer? || step.Ceiling?)
    ensures LoneOk(Next(s, step))
  {
    var t := Next(s, step);
    if step.Clear? { LoneEntriesGrow(s.log, Reset); }
    if step.Clear? && s.passes != [] && !s.passes[|s.passes| - 1].stage.Done? {
      LoneRowGrows(s.log, Reset, s.passes[|s.passes| - 1].row);
    }
  }

  lemma {:induction false} LoneStep(s: State, step: Step)
    requires Inv(s) && LoneOk(s) && (step.Load? ==> AllDone(s.passes))
    ensures LoneOk(Next(s, step))
    ensures step.Note? ==> Outranks(s, step.pass)
  {
    if Enabled(s, step) {
      if step.Pause? || step.Note? { ActingIsOk(s, step.pass); }
      match step {
        case Load(now) => LoneLoad(s, now);
        case Handle(i) => LoneHandle(s, i);
        case Decide(i, delivered) => LoneDecide(s, i, delivered);
        case Pause(i) => LonePause(s, i);
        case Note(i) => LoneNote(s, i);
        case _ => LoneOthers(s, step);
      }
    }
  }

  lemma {:induction false} LoneRunsAreSound(steps: seq<Step>)
    requires Lone(steps)
    ensures LoneOk(Run(steps)) && RecordsOutrank(steps)
  {
    if steps != [] {
      var n := |steps| - 1;
      LoneRunsAreSound(steps[..n]);
      RunsAreSound(steps[..n]);
      LoneStep(Run(steps[..n]), steps[n]);
    }
  }

  /**
   * If no pass begins while another is under way, notices under one clock escalate, and every pause keeps all that
   * the customer was promised, whatever customers do and wherever passes fail.
   */
  lemma {:induction false} LonePassesKeepTheirPromises(steps: seq<Step>)
    requires Lone(steps)
    ensures NoticesRise(Run(steps).log)
    ensures forall k :: 0 <= k < |Run(steps).log| && Run(steps).log[k].PausedAt? ==> Justified(Run(steps).log, k)
  {
    LoneRunsAreSound(steps);
    NoticesEscalateExactlyWhen(steps);
    forall k | 0 <= k < |Run(steps).log| && Run(steps).log[k].PausedAt? ensures Justified(Run(steps).log, k) {
      PausesAreJustifiedExactlyWhen(steps, k);
    }
  }

  // ---------------------------------------------------------------------------------------------
  // What a pause leaves active
  // ---------------------------------------------------------------------------------------------

  function ActiveIds(ms: seq<Monitor>): set<nat> {
    set i | 0 <= i < |ms| && ms[i].active :: ms[i].id
  }

  /** Monitors named for the pause that the customer has given up since. */
  function GivenUp(ms: seq<Monitor>, named: set<nat>): nat {
    |named - ActiveIds(ms)|
  }

  lemma {:induction false} ActiveIdsSplit(ms: seq<Monitor>)
    requires ms != [] && DistinctIds(ms)
    ensures var m, rest := ms[|ms| - 1], ms[..|ms| - 1];
            && ActiveIds(ms) == ActiveIds(rest) + (if m.active then {m.id} else {})
            && m.id !in ActiveIds(rest)
  {
    var m, rest := ms[|ms| - 1], ms[..|ms| - 1];
    forall id | id in ActiveIds(ms) ensures id in ActiveIds(rest) || (m.active && id == m.id) {
      var i :| 0 <= i < |ms| && ms[i].active && ms[i].id == id;
      if i < |rest| { assert rest[i].active && rest[i].id == id; }
    }
    forall id | id in ActiveIds(rest) ensures id in ActiveIds(ms) && id != m.id {
      var i :| 0 <= i < |rest| && rest[i].active && rest[i].id == id;
      assert ms[i].active && ms[i].id == id;
    }
    if m.active { assert ms[|ms| - 1].active && ms[|ms| - 1].id in ActiveIds(ms); }
  }

  lemma {:induction false} OneMoreTaken(ids: set<nat>, active: set<nat>, id: nat)
    requires id !in active
    ensures |ids * (active + {id})| == |ids * active| + if id in ids then 1 else 0
  {
    assert ids * (active + {id}) == (ids * active) + (if id in ids then {id} else {});
  }

  lemma {:induction false} LastNamed(ms: seq<Monitor>, ids: set<nat>, now: int)
    requires ms != []
    ensures var m, rest := ms[|ms| - 1], ms[..|ms| - 1];
            ActiveCount(PauseNamed(ms, ids, now))
            == ActiveCount(PauseNamed(rest, ids, now)) + if m.active && m.id !in ids then 1 else 0
  {
    assert PauseNamed(ms, ids, now)[..|ms| - 1] == PauseNamed(ms[..|ms| - 1], ids, now);
  }

  lemma {:induction false} NamedAreTaken(ms: seq<Monitor>, ids: set<nat>, now: int)
    requires DistinctIds(ms)
    ensures ActiveCount(PauseNamed(ms, ids, now)) == ActiveCount(ms) - |ids * ActiveIds(ms)|
  {
    if ms == [] {
      assert ids * ActiveIds(ms) == {};
    } else {
      var m, rest := ms[|ms| - 1], ms[..|ms| - 1];
      NamedAreTaken(rest, ids, now);
      ActiveIdsSplit(ms);
      LastNamed(ms, ids, now);
      OneMoreTaken(ids, ActiveIds(rest), m.id);
      assert !m.active ==> ActiveIds(ms) == ActiveIds(rest);
    }
  }

  lemma {:induction false} TakenAndGivenUp(ms: seq<Monitor>, named: set<nat>, now: int)
    requires DistinctIds(ms)
    ensures ActiveCount(PauseNamed(ms, named, now)) == ActiveCount(ms) + GivenUp(ms, named) - |named|
  {
    NamedAreTaken(ms, named, now);
    assert named == (named * ActiveIds(ms)) + (named - ActiveIds(ms));
  }

  lemma {:induction false} PauseTakes(s: State, i: nat)
    requires Enabled(s, Pause(i)) && StageOk(s.log, s.passes[i]) && DistinctIds(s.monitors)
    ensures var p := s.passes[i];
            && p.Over()
            && ActiveCount(Next(s, Pause(i)).monitors)
               == ActiveCount(s.monitors) + GivenUp(s.monitors, p.stage.named)
                  - Min(p.active - p.ceiling.value, p.stage.countThen)
  {
    TakenAndGivenUp(s.monitors, s.passes[i].stage.named, s.passes[i].now);
  }

  lemma {:induction false} LeavesExactlyWhen(s: State, i: nat)
    requires Enabled(s, Pause(i)) && StageOk(s.log, s.passes[i]) && DistinctIds(s.monitors) && s.ceiling.Some?
    ensures var p, left := s.passes[i], ActiveCount(Next(s, Pause(i)).monitors);
            var active, ceiling, lost := ActiveCount(s.monitors), s.ceiling.value, GivenUp(s.monitors, p.stage.named);
            && p.Over()
            && (left == ceiling <==> active + lost == ceiling + Min(p.active - p.ceiling.value, p.stage.countThen))
            && (p.stage.countThen >= p.active - p.ceiling.value ==>
                  (left == ceiling <==> active - p.active + lost == ceiling - p.ceiling.value))
  {
    PauseTakes(s, i);
  }

  /**
   * Whatever customers do before the monitors are named and while the email about them is sent, a pause
   * leaves exactly the ceiling of that moment active just when the active monitors, with those named and
   * given up since, number the ceiling and the excess the pass took: what it counted, or all that were
   * active at the naming. Where the excess was there to be named, that is when the gain in active monitors
   * since the count, with those given up, equals the gain in the ceiling.
   */
  lemma {:induction false} PauseLeavesTheCeilingExactlyWhen(steps: seq<Step>, s: State, i: nat)
    requires s == Run(steps) && Enabled(s, Pause(i)) && s.ceiling.Some?
    ensures var p, left := s.passes[i], ActiveCount(Next(s, Pause(i)).monitors);
            var active, ceiling, lost := ActiveCount(s.monitors), s.ceiling.value, GivenUp(s.monitors, p.stage.named);
            && p.Over()
            && (left == ceiling <==> active + lost == ceiling + Min(p.active - p.ceiling.value, p.stage.countThen))
            && (p.stage.countThen >= p.active - p.ceiling.value ==>
                  (left == ceiling <==> active - p.active + lost == ceiling - p.ceiling.value))
  {
    RunsAreSound(steps);
    ActingIsOk(s, i);
    LeavesExactlyWhen(s, i);
  }

  // ---------------------------------------------------------------------------------------------
  // Runs on which the promises fail
  // ---------------------------------------------------------------------------------------------

  const A := Monitor(0, 0, true, None)
  const B := Monitor(1, 1, true, None)
  const C := Monitor(2, 2, true, None)
  const A_PAUSED := Monitor(0, 0, false, None)

  lemma {:induction false} Extend(steps: seq<Step>, s: State, step: Step) returns (more: seq<Step>, t: State)
    requires s == Run(steps)
    ensures more == steps + [step] && t == Next(s, step) == Run(more)
  {
    more, t := steps + [step], Next(s, step);
    assert more[..|steps|] == steps;
  }

  lemma {:induction false} SmallCounts()
    ensures ActiveCount([A]) == 1 && ActiveCount([A, B]) == 2 && ActiveCount([A, B, C]) == 3
    ensures ActiveCount([A_PAUSED, B]) == 1 && ActiveCount([A_PAUSED, B, C]) == 2
    ensures NewestActive([A, B, C], 1) == {2} && NewestActive([A, B], 1) == {1}
  {
    assert [A][..0] == [] && [A, B][..1] == [A] && [A, B, C][..2] == [A, B];
    assert [A_PAUSED][..0] == [] && [A_PAUSED, B][..1] == [A_PAUSED] && [A_PAUSED, B, C][..2] == [A_PAUSED, B];
    assert ActiveCount([A_PAUSED]) == 0 && ActiveCount([A_PAUSED, B]) == 1;
    assert NewestActive([A, B], 0) == {} && NewestActive([A], 0) == {};
  }

  /** Two passes under one clock, of which the second loaded before the first recorded what it sent. */
  lemma {:induction false} RunToTwoPasses() returns (steps: seq<Step>, s: State)
    ensures s == Run(steps) && |s.passes| == 2 && s.row.sub.since.Some?
    ensures forall i :: 0 <= i < 2 ==> s.passes[i].stage.Deciding? && s.passes[i].now - s.passes[i].Clock() < DAY
    ensures s.passes[0].row.sub.notice.None? && s.passes[1].row.sub.notice.None?
  {
    SmallCounts();
    s := INITIAL;
    steps := [];
    steps, s := Extend(steps, s, Customer([A, B]));
    steps, s := Extend(steps, s, Ceiling(Some(1)));
    BegunPass(s, 1);
    steps, s := Extend(steps, s, Load(1));
    steps, s := Extend(steps, s, Handle(0));
    BegunPass(s, 2);
    steps, s := Extend(steps, s, Load(2));
    steps, s := Extend(steps, s, Handle(1));
  }

  lemma {:induction false} RunToASecondWarning() returns (steps: seq<Step>, s: State)
    ensures s == Run(steps) && |s.passes| == 2 && s.passes[1].stage == Noting(Over)
    ensures s.row.sub.since.Some? && s.row.sub.notice == Some(Over)
  {
    steps, s := RunToTwoPasses();
    steps, s := Extend(steps, s, Decide(0, true));
    steps, s := Extend(steps, s, Decide(1, true));
    steps, s := Extend(steps, s, Note(0));
  }

  /** Two passes that loaded before either recorded its warning send and record the same one. */
  lemma {:induction false} OverlapRepeatsANotice() returns (steps: seq<Step>)
    ensures !NoticesRise(Run(steps).log)
  {
    var before, s := RunToASecondWarning();
    steps, s := Extend(before, s, Note(1));
    assert steps[..|before|] == before;
    NoticesEscalateExactlyWhen(steps);
  }

  /** One pass, undisturbed, that delivers and records the warning due. */
  lemma {:induction false} WarnOnce(steps: seq<Step>, s: State, now: int) returns (more: seq<Step>, t: State)
    requires s == Run(steps) && now > s.lastPass && !Within(s.monitors, s.ceiling)
    requires var since := if s.row.sub.since.Some? then s.row.sub.since.value else now;
             Rank(s.row.sub.notice) < Rank(Some(WarningDue(now - since)))
    ensures t == Run(more) && t.monitors == s.monitors && t.ceiling == s.ceiling && t.lastPass == now
    ensures |t.passes| == |s.passes| + 1
    ensures var since := if s.row.sub.since.Some? then s.row.sub.since.value else now;
            t.row.sub == Sub(Some(since), Some(WarningDue(now - since)), Some(now))
  {
    var n := |s.passes|;
    BegunPass(s, now);
    more, t := Extend(steps, s, Load(now));
    more, t := Extend(more, t, Handle(n));
    more, t := Extend(more, t, Decide(n, true));
    more, t := Extend(more, t, Note(n));
  }

  /** A run to the moment that a pass has named the monitors above the ceiling and told the customer of the pause. */
  lemma {:induction false} RunToAPause(ms: seq<Monitor>, ceiling: nat) returns (steps: seq<Step>, s: State)
    requires DistinctIds(ms) && ActiveCount(ms) > ceiling
    ensures s == Run(steps) && s.monitors == ms && s.ceiling == Some(ceiling) && |s.passes| == 3
    ensures var p, excess := s.passes[2], ActiveCount(ms) - ceiling;
            && p.stage == Announced(NewestActive(ms, excess), ActiveCount(ms)) && s.lastPass == p.now
            && p.active == ActiveCount(ms) && p.ceiling == Some(ceiling)
  {
    s := INITIAL;
    steps := [];
    steps, s := Extend(steps, s, Customer(ms));
    steps, s := Extend(steps, s, Ceiling(Some(ceiling)));
    steps, s := WarnOnce(steps, s, 1);
    steps, s := WarnOnce(steps, s, 1 + 13 * DAY);
    var now := 1 + 14 * DAY;
    BegunPass(s, now);
    steps, s := Extend(steps, s, Load(now));
    steps, s := Extend(steps, s, Handle(2));
    steps, s := Extend(steps, s, Decide(2, true));
  }

  /**
   * While a pass sends its email, the customer pauses a monitor and is back at the ceiling of one, which a
   * later pass finds and clears the clock. The earlier pass then pauses the other: nothing is left active.
   */
  lemma {:induction false} OverlapPausesWithinTheCeiling() returns (steps: seq<Step>, k: nat)
    ensures k < |Run(steps).log| && Run(steps).log[k].PausedAt? && !Justified(Run(steps).log, k)
    ensures Run(steps).ceiling == Some(1) && ActiveCount(Run(steps).monitors) == 0
  {
    SmallCounts();
    var s;
    steps, s := RunToAPause([A, B], 1);
    steps, s := Extend(steps, s, Customer([A_PAUSED, B]));
    var found := |s.log| + 1;
    steps, s := Extend(steps, s, Load(s.lastPass + 1));
    steps, s := Extend(steps, s, Handle(3));
    assert s.log[found].Found? && !s.log[found].over;
    k := |s.log|;
    assert s.passes[2].stage.named == {1} && s.monitors == [A_PAUSED, B];
    PausesTheOther(s.passes[2].now);
    steps, s := Extend(steps, s, Pause(2));
    assert s.log[found].Found? && !s.log[found].over && s.log[k].PausedAt?;
    RunsAreSound(steps);
    assert Earned(s.log, k);
  }

  lemma {:induction false} PausesTheOther(now: int)
    ensures ActiveCount(PauseNamed([A_PAUSED, B], {1}, now)) == 0
  {
    var ms := PauseNamed([A_PAUSED, B], {1}, now);
    CountsAreBounded(ms);
  }

  /** A slow pass records its last warning under a clock that started while it sent it. */
  /** An organization in its last day, whose last warning is being sent. */
  lemma {:induction false} RunToALastDay() returns (steps: seq<Step>, s: State)
    ensures s == Run(steps) && |s.passes| == 2 && s.lastPass == 1 + 13 * DAY && s.row.sub.since == Some(1)
    ensures s.passes[1].stage == Noting(LastDay) && s.passes[1].now == 1 + 13 * DAY
    ensures s.monitors == [A, B] && s.ceiling == Some(1)
  {
    SmallCounts();
    s := INITIAL;
    steps := [];
    steps, s := Extend(steps, s, Customer([A, B]));
    steps, s := Extend(steps, s, Ceiling(Some(1)));
    steps, s := WarnOnce(steps, s, 1);
    BegunPass(s, 1 + 13 * DAY);
    steps, s := Extend(steps, s, Load(1 + 13 * DAY));
    steps, s := Extend(steps, s, Handle(1));
    steps, s := Extend(steps, s, Decide(1, true));
  }

  lemma {:induction false} RunToAStrayWarning() returns (steps: seq<Step>, s: State)
    ensures s == Run(steps) && |s.passes| == 3 && s.lastPass == 2 + 13 * DAY
    ensures s.monitors == [A, B] && s.ceiling == Some(1)
    ensures s.row.sub == Sub(Some(2 + 13 * DAY), Some(LastDay), Some(1 + 13 * DAY))
  {
    SmallCounts();
    steps, s := RunToALastDay();
    steps, s := Extend(steps, s, Ceiling(Some(2)));
    steps, s := Extend(steps, s, Clear);
    steps, s := Extend(steps, s, Ceiling(Some(1)));
    BegunPass(s, 2 + 13 * DAY);
    steps, s := Extend(steps, s, Load(2 + 13 * DAY));
    steps, s := Extend(steps, s, Handle(2));
    steps, s := Extend(steps, s, Note(1));
  }

  /**
   * While that pass sent it, the customer was within a higher ceiling for a while. A pause follows with no
   * warning given about the newer clock.
   */
  lemma {:induction false} OverlapPausesWithoutAWarning() returns (steps: seq<Step>, k: nat)
    ensures k < |Run(steps).log| && Run(steps).log[k].PausedAt? && !Justified(Run(steps).log, k)
    ensures Run(steps).log[k].warned < Run(steps).log[k].clock
  {
    SmallCounts();
    var s;
    steps, s := RunToAStrayWarning();
    BegunPass(s, 2 + 27 * DAY);
    steps, s := Extend(steps, s, Load(2 + 27 * DAY));
    steps, s := Extend(steps, s, Handle(3));
    steps, s := Extend(steps, s, Decide(3, true));
    k := |s.log|;
    steps, s := Extend(steps, s, Pause(3));
    assert s.log[k].PausedAt? && s.log[k].clock == 2 + 13 * DAY && s.log[k].warned == 1 + 13 * DAY;
  }

  /** A first warning that is being sent while its clock is cleared. */
  lemma {:induction false} RunToALeftoverNotice() returns (steps: seq<Step>, s: State)
    ensures s == Run(steps) && |s.passes| == 1 && s.lastPass == 1 && s.monitors == [A, B] && s.ceiling == Some(1)
    ensures s.row.sub == Sub(None, Some(Over), Some(1))
  {
    SmallCounts();
    s := INITIAL;
    steps := [];
    steps, s := Extend(steps, s, Customer([A, B]));
    steps, s := Extend(steps, s, Ceiling(Some(1)));
    BegunPass(s, 1);
    steps, s := Extend(steps, s, Load(1));
    steps, s := Extend(steps, s, Handle(0));
    steps, s := Extend(steps, s, Decide(0, true));
    steps, s := Extend(steps, s, Ceiling(Some(2)));
    steps, s := Extend(steps, s, Clear);
    steps, s := Extend(steps, s, Note(0));
    steps, s := Extend(steps, s, Ceiling(Some(1)));
  }

  /** The next pass then starts a clock and gives no warning about it. */
  lemma {:induction false} LeftoverNoticeDelaysTheFirst() returns (steps: seq<Step>)
    ensures var s := Run(steps);
            && |s.passes| == 2 && s.passes[1].stage.Done? && s.row.sub == Sub(Some(2), None, None)
            && s.ceiling == Some(1) && ActiveCount(s.monitors) == 2
  {
    var s;
    SmallCounts();
    steps, s := RunToALeftoverNotice();
    BegunPass(s, 2);
    steps, s := Extend(steps, s, Load(2));
    steps, s := Extend(steps, s, Handle(1));
    steps, s := Extend(steps, s, Decide(1, true));
  }

  lemma {:induction false} PausesTheNewest(ms: seq<Monitor>, now: int)
    requires |ms| == 3 && ms[2] == C && DistinctIds(ms)
    ensures ActiveCount(PauseNamed(ms, {2}, now)) == ActiveCount(ms) - 1
  {
    TakenAndGivenUp(ms, {2}, now);
    assert ms[2].active && ms[2].id in ActiveIds(ms);
    assert {2} - ActiveIds(ms) == {};
  }

  /** The customer pauses a monitor while the email is sent, and is left below a ceiling of two. */
  lemma {:induction false} ChangeMissesTheCeiling() returns (steps: seq<Step>, i: nat)
    ensures Enabled(Run(steps), Pause(i)) && Run(steps).ceiling == Some(2)
    ensures ActiveCount(Next(Run(steps), Pause(i)).monitors) == 1
  {
    SmallCounts();
    var s;
    steps, s := RunToAPause([A, B, C], 2);
    steps, s := Extend(steps, s, Customer([A_PAUSED, B, C]));
    i := 2;
    PausesTheNewest(s.monitors, s.passes[i].now);
  }

  /** The customer buys room while the email is sent, and is left below the three they pay for. */
  lemma {:induction false} RaiseMissesTheCeiling() returns (steps: seq<Step>, i: nat)
    ensures Enabled(Run(steps), Pause(i)) && Run(steps).ceiling == Some(3)
    ensures ActiveCount(Next(Run(steps), Pause(i)).monitors) == 2
  {
    SmallCounts();
    var s;
    steps, s := RunToAPause([A, B, C], 2);
    steps, s := Extend(steps, s, Ceiling(Some(3)));
    i := 2;
    PausesTheNewest(s.monitors, s.passes[i].now);
  }

  // ---------------------------------------------------------------------------------------------
  // The pass
  // ---------------------------------------------------------------------------------------------

  datatype Organization = Organization(sub: Sub, monitors: seq<Monitor>, ceiling: Option<nat>)

  /** What an undisturbed pass does to one organization, given whether each notice gets delivered. */
  function Passed(o: Organization, now: int, delivers: Notice -> bool): Organization {
    if Within(o.monitors, o.ceiling) then o.(sub := Cleared(o.sub))
    else
      var running := if o.sub.since.Some? then o.sub else Sub(Some(now), None, None);
      var since := running.since.value;
      var due := WarningDue(now - since);
      if Rank(o.sub.notice) < Rank(Some(due)) then
        o.(sub := if delivers(due) then running.(notice := Some(due), noticedAt := Some(now)) else running)
      else if Enforces(o.sub, since, now) && delivers(Notice.Paused) then
        Organization(running.(notice := Some(Notice.Paused), noticedAt := Some(now)),
                     PauseAt(o.monitors, o.ceiling.value, now), o.ceiling)
      else o.(sub := running)
  }

  lemma {:induction false} BegunPass(s: State, now: int)
    requires now > s.lastPass
    ensures var n, t := |s.passes|, Next(Next(s, Load(now)), Handle(|s.passes|));
            && |t.passes| == n + 1 && t.monitors == s.monitors && t.ceiling == s.ceiling
            && var p := t.passes[n];
               && p.now == now && p.row == s.row && p.active == ActiveCount(s.monitors) && p.ceiling == s.ceiling
               && (if Within(s.monitors, s.ceiling) then p.stage.Done? && t.row.sub == Cleared(s.row.sub)
                   else p.stage.Deciding?
                        && t.row.sub == if s.row.sub.since.Some? then s.row.sub else Sub(Some(now), None, None))
  {}

  /** The rest of a pass that found the organization above its ceiling, with nothing in between. */
  lemma {:induction false} FinishedPass(s: State, n: nat, delivers: Notice -> bool)
    requires n < |s.passes| && s.passes[n].stage.Deciding? && s.passes[n].Over() && DistinctIds(s.monitors)
    requires s.passes[n].active == ActiveCount(s.monitors)
    ensures var p := s.passes[n];
            var due := WarningDue(p.now - p.Clock());
            var warns := Rank(p.row.sub.notice) < Rank(Some(due));
            var t := Next(Next(Next(s, Decide(n, delivers(if warns then due else Notice.Paused))), Pause(n)), Note(n));
            && |t.passes| == |s.passes| && t.passes[n].stage.Done? && t.ceiling == s.ceiling
            && (if warns then
                  && t.monitors == s.monitors
                  && t.row.sub == if delivers(due) then s.row.sub.(notice := Some(due), noticedAt := Some(p.now))
                                  else s.row.sub
                else if Enforces(p.row.sub, p.Clock(), p.now) && delivers(Notice.Paused) then
                  && t.monitors == PauseAt(s.monitors, p.ceiling.value, p.now)
                  && t.row.sub == s.row.sub.(notice := Some(Notice.Paused), noticedAt := Some(p.now))
                else t.monitors == s.monitors && t.row.sub == s.row.sub)
  {
    PausingNamedTakesNewest(s.monitors, s.passes[n].active - s.passes[n].ceiling.value, s.passes[n].now);
  }

  /** An undisturbed pass is one of the interleavings, so all of the above holds of it. */
  lemma {:induction false} PassIsARun(s: State, now: int, delivers: Notice -> bool)
    requires now > s.lastPass && DistinctIds(s.monitors)
    ensures var n := |s.passes|;
            var handled := Next(Next(s, Load(now)), Handle(n));
            |handled.passes| == n + 1 &&
            var p := handled.passes[n];
            var due := WarningDue(now - p.Clock());
            var delivered := delivers(if Rank(p.row.sub.notice) < Rank(Some(due)) then due else Notice.Paused);
            var t := Next(Next(Next(handled, Decide(n, delivered)), Pause(n)), Note(n));
            && n < |t.passes| && t.passes[n].stage.Done?
            && Organization(t.row.sub, t.monitors, t.ceiling)
               == Passed(Organization(s.row.sub, s.monitors, s.ceiling), now, delivers)
  {
    BegunPass(s, now);
    if !Within(s.monitors, s.ceiling) {
      FinishedPass(Next(Next(s, Load(now)), Handle(|s.passes|)), |s.passes|, delivers);
    }
  }

  /** The time since the clock started, which the pass itself may start. */
  ghost function Elapsed(o: Organization, now: int): int {
    now - if o.sub.since.Some? then o.sub.since.value else now
  }

  ghost predicate AboveCeiling(o: Organization) {
    o.ceiling.Some? && ActiveCount(o.monitors) > o.ceiling.value
  }

  /**
   * The one notice a pass has to give: the first, the week's or the last warning when its time has come and neither it
   * nor a later one is on record, or the pause a day after the last warning.
   */
  ghost predicate Announces(o: Organization, now: int, kind: Notice) {
    && AboveCeiling(o)
    && match kind
       case Over => Elapsed(o, now) < 7 * 86_400_000 && o.sub.notice.None?
       case Week =>
         && 7 * 86_400_000 <= Elapsed(o, now) < 13 * 86_400_000
         && o.sub.notice in {None, Some(Over)}
       case LastDay => 13 * 86_400_000 <= Elapsed(o, now) && o.sub.notice in {None, Some(Over), Some(Week)}
       case Paused =>
         && 14 * 86_400_000 <= Elapsed(o, now) && o.sub.notice == Some(LastDay)
         && o.sub.noticedAt.Some? && o.sub.noticedAt.value + 86_400_000 <= now
  }

  /** What a pass leaves of an organization: a clock just while it is above its ceiling, and what it announced. */
  ghost predicate Outcome(o: Organization, t: Organization, now: int, delivers: Notice -> bool) {
    && t.ceiling == o.ceiling
    && (!AboveCeiling(o) ==>
          t.monitors == o.monitors && t.sub == if o.sub.since.Some? then Sub(None, None, None) else o.sub)
    && (AboveCeiling(o) ==> t.sub.since == Some(now - Elapsed(o, now)))
    && (forall kind :: Announces(o, now, kind) && delivers(kind) ==>
          && t.sub.notice == Some(kind) && t.sub.noticedAt == Some(now)
          && (kind == Notice.Paused ==>
                ActiveCount(t.monitors) == o.ceiling.value && NewestPaused(o.monitors, t.monitors, now))
          && (kind != Notice.Paused ==> t.monitors == o.monitors))
    && (AboveCeiling(o) && (forall kind :: Announces(o, now, kind) ==> !delivers(kind)) ==>
          && t.monitors == o.monitors
          && t.sub.notice == (if o.sub.since.Some? then o.sub.notice else None)
          && t.sub.noticedAt == (if o.sub.since.Some? then o.sub.noticedAt else None))
  }

  lemma {:induction false} WarningIsAnnounced(o: Organization, now: int)
    requires AboveCeiling(o)
    ensures var due := WarningDue(Elapsed(o, now));
            && (Rank(o.sub.notice) < Rank(Some(due)) <==> Announces(o, now, due))
            && (forall kind :: Announces(o, now, kind) ==> kind == due || kind == Notice.Paused)
            && (Announces(o, now, due) ==> due != Notice.Paused && !Announces(o, now, Notice.Paused))
            && (Announces(o, now, Notice.Paused) <==>
                  Rank(o.sub.notice) >= Rank(Some(due)) && Enforces(o.sub, now - Elapsed(o, now), now))
  {}

  /**
   * Above its ceiling, with every email delivered, an organization has a warning on record after a pass, the week's
   * from the seventh day on and the last from the thirteenth. It has none exactly when the pass starts its clock and
   * found a notice left over from one that was cleared. The week's is new only from the seventh day on, and the last
   * only from the thirteenth.
   */
  ghost predicate WarnsInTime(o: Organization, t: Organization, now: int, delivers: Notice -> bool) {
    AboveCeiling(o) ==>
      && ((forall kind :: delivers(kind)) ==>
            && (t.sub.notice.None? <==> o.sub.since.None? && o.sub.notice.Some?)
            && (Elapsed(o, now) >= 7 * 86_400_000 ==>
                  t.sub.notice in {Some(Week), Some(LastDay), Some(Notice.Paused)})
            && (Elapsed(o, now) >= 13 * 86_400_000 ==> t.sub.notice in {Some(LastDay), Some(Notice.Paused)}))
      && (t.sub.notice == Some(Week) && o.sub.notice != Some(Week) ==> Elapsed(o, now) >= 7 * 86_400_000)
      && (t.sub.notice == Some(LastDay) && o.sub.notice != Some(LastDay) ==> Elapsed(o, now) >= 13 * 86_400_000)
      && (t.sub.notice == Some(Notice.Paused) && o.sub.notice != Some(Notice.Paused) ==>
            Elapsed(o, now) >= 14 * 86_400_000 && o.sub.notice == Some(LastDay))
  }

  lemma {:induction false} OutcomeWarnsInTime(o: Organization, t: Organization, now: int, delivers: Notice -> bool)
    requires Outcome(o, t, now, delivers)
    ensures WarnsInTime(o, t, now, delivers)
  {
    if AboveCeiling(o) {
      WarningIsAnnounced(o, now);
      var due := WarningDue(Elapsed(o, now));
      if !(Announces(o, now, due) && delivers(due)) && !(Announces(o, now, Notice.Paused) && delivers(Notice.Paused)) {
        assert forall kind :: Announces(o, now, kind) ==> !delivers(kind);
      }
    }
  }

  /** What a pass above the ceiling does is to announce what it has to, and to keep the clock otherwise. */
  lemma {:induction false} PassAnnounces(o: Organization, now: int, delivers: Notice -> bool)
    requires AboveCeiling(o)
    ensures var t, since := Passed(o, now, delivers), now - Elapsed(o, now);
            var due := WarningDue(Elapsed(o, now));
            if Announces(o, now, due) && delivers(due) then
              t == o.(sub := Sub(Some(since), Some(due), Some(now)))
            else if Announces(o, now, Notice.Paused) && delivers(Notice.Paused) then
              t == Organization(Sub(Some(since), Some(Notice.Paused), Some(now)),
                                PauseAt(o.monitors, o.ceiling.value, now), o.ceiling)
            else t == o.(sub := if o.sub.since.Some? then o.sub else Sub(Some(now), None, None))
  {
    WarningIsAnnounced(o, now);
  }

  lemma {:induction false} AnnouncedOutcome(o: Organization, t: Organization, now: int, delivers: Notice -> bool,
                                            kind: Notice)
    requires AboveCeiling(o) && Announces(o, now, kind) && delivers(kind)
    requires forall k :: Announces(o, now, k) && delivers(k) ==> k == kind
    requires t.ceiling == o.ceiling && t.sub == Sub(Some(now - Elapsed(o, now)), Some(kind), Some(now))
    requires kind == Notice.Paused ==>
               ActiveCount(t.monitors) == o.ceiling.value && NewestPaused(o.monitors, t.monitors, now)
    requires kind != Notice.Paused ==> t.monitors == o.monitors
    ensures Outcome(o, t, now, delivers)
  {
    hide Announces, NewestPaused, ActiveCount;
  }

  lemma {:induction false} QuietOutcome(o: Organization, now: int, delivers: Notice -> bool)
    requires AboveCeiling(o) && forall kind :: Announces(o, now, kind) ==> !delivers(kind)
    ensures Outcome(o, o.(sub := if o.sub.since.Some? then o.sub else Sub(Some(now), None, None)), now, delivers)
  {
    hide Announces, NewestPaused;
  }

  lemma {:induction false} PassHasOutcome(o: Organization, now: int, delivers: Notice -> bool)
    ensures Outcome(o, Passed(o, now, delivers), now, delivers)
  {
    var due := WarningDue(Elapsed(o, now));
    if !AboveCeiling(o) {
      assert Passed(o, now, delivers) == o.(sub := Cleared(o.sub));
    } else {
      WarningIsAnnounced(o, now);
      PassAnnounces(o, now, delivers);
      PauseTakesNewest(o.monitors, ActiveCount(o.monitors) - o.ceiling.value, now);
      PauseLeavesActive(o.monitors, ActiveCount(o.monitors) - o.ceiling.value, now);
      hide Passed, NewestPaused, Announces, WarningDue, PauseNewest, Outcome, ActiveCount;
      if Announces(o, now, due) && delivers(due) {
        AnnouncedOutcome(o, Passed(o, now, delivers), now, delivers, due);
      } else if Announces(o, now, Notice.Paused) && delivers(Notice.Paused) {
        AnnouncedOutcome(o, Passed(o, now, delivers), now, delivers, Notice.Paused);
      } else {
        QuietOutcome(o, now, delivers);
      }
    }
  }

  datatype Counts = Counts(over: nat, started: nat, cleared: nat, sent: nat, paused: nat, failures: nat)

  /** What the pass reports of one organization. */
  function Tally(o: Organization, now: int, delivers: Notice -> bool): Counts {
    if Within(o.monitors, o.ceiling) then Counts(0, 0, if o.sub.since.Some? then 1 else 0, 0, 0, 0)
    else
      var started := if o.sub.since.None? then 1 else 0;
      var since := if o.sub.since.Some? then o.sub.since.value else now;
      var due := WarningDue(now - since);
      if Rank(o.sub.notice) < Rank(Some(due)) then
        if delivers(due) then Counts(1, started, 0, 1, 0, 0) else Counts(1, started, 0, 0, 0, 1)
      else if !Enforces(o.sub, since, now) then Counts(1, started, 0, 0, 0, 0)
      else if delivers(Notice.Paused) then
        Counts(1, started, 0, 1, ActiveCount(o.monitors) - o.ceiling.value, 0)
      else Counts(1, started, 0, 0, 0, 1)
  }

  /** A report counts one for each thing that happened to the organization, and the monitors paused. */
  ghost predicate Reports(tally: Counts, o: Organization, t: Organization, now: int, delivers: Notice -> bool) {
    && tally.over == (if AboveCeiling(o) then 1 else 0)
    && tally.started == (if AboveCeiling(o) && o.sub.since.None? then 1 else 0)
    && tally.cleared == (if !AboveCeiling(o) && o.sub.since.Some? then 1 else 0)
    && tally.sent == (if exists kind :: Announces(o, now, kind) && delivers(kind) then 1 else 0)
    && tally.failures == (if exists kind :: Announces(o, now, kind) && !delivers(kind) then 1 else 0)
    && tally.paused == ActiveCount(o.monitors) - ActiveCount(t.monitors)
  }

  lemma {:induction false} OneOfTwo(o: Organization, now: int, delivers: Notice -> bool, reached: bool)
    requires AboveCeiling(o)
    ensures var due := WarningDue(Elapsed(o, now));
            (exists kind :: Announces(o, now, kind) && delivers(kind) == reached)
            <==> || (Announces(o, now, due) && delivers(due) == reached)
                 || (Announces(o, now, Notice.Paused) && delivers(Notice.Paused) == reached)
  {
    WarningIsAnnounced(o, now);
  }

  lemma {:induction false} TallyReports(o: Organization, now: int, delivers: Notice -> bool)
    ensures Reports(Tally(o, now, delivers), o, Passed(o, now, delivers), now, delivers)
  {
    if AboveCeiling(o) {
      WarningIsAnnounced(o, now);
      OneOfTwo(o, now, delivers, true);
      OneOfTwo(o, now, delivers, false);
      PauseLeavesActive(o.monitors, ActiveCount(o.monitors) - o.ceiling.value, now);
      hide Announces;
    }
  }

  /** Whether the notices to one organization are delivered. */
  function For(delivers: (nat, Notice) -> bool, i: nat): Notice -> bool {
    kind => delivers(i, kind)
  }

  function Total(os: seq<Organization>, now: int, delivers: (nat, Notice) -> bool): Counts {
    if os == [] then Counts(0, 0, 0, 0, 0, 0)
    else
      var n := |os| - 1;
      var a, b := Total(os[..n], now, delivers), Tally(os[n], now, For(delivers, n));
      Counts(a.over + b.over, a.started + b.started, a.cleared + b.cleared, a.sent + b.sent,
             a.paused + b.paused, a.failures + b.failures)
  }

  function Active(os: seq<Organization>): nat {
    if os == [] then 0 else Active(os[..|os| - 1]) + ActiveCount(os[|os| - 1].monitors)
  }

  ghost function HowMany(n: nat, p: int -> bool): nat {
    |set i | 0 <= i < n && p(i)|
  }

  lemma {:induction false} OneMore(n: nat, p: int -> bool)
    ensures HowMany(n + 1, p) == HowMany(n, p) + if p(n) then 1 else 0
  {
    assert (set i | 0 <= i < n + 1 && p(i)) == (set i | 0 <= i < n && p(i)) + if p(n) then {n} else {};
  }

  ghost function Overs(os: seq<Organization>): int -> bool {
    i => 0 <= i < |os| && AboveCeiling(os[i])
  }

  ghost function Starts(os: seq<Organization>): int -> bool {
    i => 0 <= i < |os| && AboveCeiling(os[i]) && os[i].sub.since.None?
  }

  ghost function Clears(os: seq<Organization>): int -> bool {
    i => 0 <= i < |os| && !AboveCeiling(os[i]) && os[i].sub.since.Some?
  }

  /** The organizations whose notice reached them, or did not. */
  ghost function Told(os: seq<Organization>, now: int, delivers: (nat, Notice) -> bool, reached: bool): int -> bool {
    i => 0 <= i < |os| && exists kind :: Announces(os[i], now, kind) && delivers(i, kind) == reached
  }

  /** A pass's report on the first `n` organizations counts them, and the monitors that are no longer active. */
  ghost predicate TotalReports(total: Counts, n: nat, os: seq<Organization>, ts: seq<Organization>, now: int,
                               delivers: (nat, Notice) -> bool)
    requires n <= |os| == |ts|
  {
    && total.over == HowMany(n, Overs(os))
    && total.started == HowMany(n, Starts(os))
    && total.cleared == HowMany(n, Clears(os))
    && total.sent == HowMany(n, Told(os, now, delivers, true))
    && total.failures == HowMany(n, Told(os, now, delivers, false))
    && total.paused == Active(os[..n]) - Active(ts[..n])
  }

  lemma {:induction false} OneTold(os: seq<Organization>, ts: seq<Organization>, n: nat, now: int,
                                   delivers: (nat, Notice) -> bool)
    requires n < |os| == |ts| && ts[n] == Passed(os[n], now, For(delivers, n))
    ensures var tally := Tally(os[n], now, For(delivers, n));
            && tally.over == (if Overs(os)(n) then 1 else 0)
            && tally.started == (if Starts(os)(n) then 1 else 0)
            && tally.cleared == (if Clears(os)(n) then 1 else 0)
            && tally.sent == (if Told(os, now, delivers, true)(n) then 1 else 0)
            && tally.failures == (if Told(os, now, delivers, false)(n) then 1 else 0)
            && tally.paused == ActiveCount(os[n].monitors) - ActiveCount(ts[n].monitors)
  {
    TallyReports(os[n], now, For(delivers, n));
  }

  lemma {:induction false} TotalGrows(os: seq<Organization>, n: nat, now: int, delivers: (nat, Notice) -> bool)
    requires n < |os|
    ensures var a, b := Total(os[..n], now, delivers), Tally(os[n], now, For(delivers, n));
            Total(os[..n + 1], now, delivers)
            == Counts(a.over + b.over, a.started + b.started, a.cleared + b.cleared, a.sent + b.sent,
                      a.paused + b.paused, a.failures + b.failures)
  {
    hide Tally;
    assert os[..n + 1][..n] == os[..n];
  }

  lemma {:induction false} ActiveGrows(os: seq<Organization>, n: nat)
    requires n < |os|
    ensures Active(os[..n + 1]) == Active(os[..n]) + ActiveCount(os[n].monitors)
  {
    assert os[..n + 1][..n] == os[..n];
  }

  ghost predicate AllPassed(os: seq<Organization>, ts: seq<Organization>, now: int, delivers: (nat, Notice) -> bool) {
    && |ts| == |os|
    && forall i :: 0 <= i < |os| ==> ts[i] == Passed(os[i], now, For(delivers, i))
  }

  /** One organization's tally added to the report on those before it. */
  lemma {:induction false} ReportsAdd(a: Counts, b: Counts, n: nat, os: seq<Organization>, ts: seq<Organization>,
                                      now: int, delivers: (nat, Notice) -> bool)
    requires n < |os| == |ts| && TotalReports(a, n, os, ts, now, delivers)
    requires b.over == (if Overs(os)(n) then 1 else 0) && b.started == (if Starts(os)(n) then 1 else 0)
    requires b.cleared == (if Clears(os)(n) then 1 else 0)
    requires b.sent == (if Told(os, now, delivers, true)(n) then 1 else 0)
    requires b.failures == (if Told(os, now, delivers, false)(n) then 1 else 0)
    requires b.paused == ActiveCount(os[n].monitors) - ActiveCount(ts[n].monitors)
    ensures TotalReports(Counts(a.over + b.over, a.started + b.started, a.cleared + b.cleared, a.sent + b.sent,
                                a.paused + b.paused, a.failures + b.failures),
                         n + 1, os, ts, now, delivers)
  {
    ActiveGrows(os, n);
    ActiveGrows(ts, n);
    OneMore(n, Overs(os));
    OneMore(n, Starts(os));
    OneMore(n, Clears(os));
    OneMore(n, Told(os, now, delivers, true));
    OneMore(n, Told(os, now, delivers, false));
    hide Overs, Starts, Clears, Told, HowMany, Active, ActiveCount;
  }

  lemma {:induction false} OneMoreReported(os: seq<Organization>, ts: seq<Organization>, n: nat, now: int,
                                           delivers: (nat, Notice) -> bool)
    requires n < |os| == |ts| && ts[n] == Passed(os[n], now, For(delivers, n))
    requires TotalReports(Total(os[..n], now, delivers), n, os, ts, now, delivers)
    ensures TotalReports(Total(os[..n + 1], now, delivers), n + 1, os, ts, now, delivers)
  {
    hide *;
    TotalGrows(os, n, now, delivers);
    OneTold(os, ts, n, now, delivers);
    ReportsAdd(Total(os[..n], now, delivers), Tally(os[n], now, For(delivers, n)), n, os, ts, now, delivers);
  }

  lemma {:induction false} PassedAt(os: seq<Organization>, ts: seq<Organization>, n: nat, now: int,
                                    delivers: (nat, Notice) -> bool)
    requires AllPassed(os, ts, now, delivers) && n < |os|
    ensures ts[n] == Passed(os[n], now, For(delivers, n))
  {
    hide Passed, For;
  }

  lemma {:induction false} TotalTells(os: seq<Organization>, ts: seq<Organization>, n: nat, now: int,
                                      delivers: (nat, Notice) -> bool)
    requires n <= |os| == |ts| && AllPassed(os, ts, now, delivers)
    ensures TotalReports(Total(os[..n], now, delivers), n, os, ts, now, delivers)
  {
    hide *;
    if n == 0 {
      NothingReported(os, ts, now, delivers);
    } else {
      TotalTells(os, ts, n - 1, now, delivers);
      PassedAt(os, ts, n - 1, now, delivers);
      OneMoreReported(os, ts, n - 1, now, delivers);
    }
  }

  lemma {:induction false} NothingReported(os: seq<Organization>, ts: seq<Organization>, now: int,
                                           delivers: (nat, Notice) -> bool)
    requires |os| == |ts|
    ensures TotalReports(Total(os[..0], now, delivers), 0, os, ts, now, delivers)
  {
    NoneYet(Overs(os));
    NoneYet(Starts(os));
    NoneYet(Clears(os));
    NoneYet(Told(os, now, delivers, true));
    NoneYet(Told(os, now, delivers, false));
    hide Overs, Starts, Clears, Told, HowMany;
  }

  lemma {:induction false} NoneYet(p: int -> bool)
    ensures HowMany(0, p) == 0
  {
    assert (set i | 0 <= i < 0 && p(i)) == {};
  }

  class GraceJob {
    var organizations: seq<Organization>

    constructor (organizations: seq<Organization>)
      ensures this.organizations == organizations
    {
      this.organizations := organizations;
    }

    /** An undisturbed pass over one organization, with `delivers` for its emails. */
    method PassOver(i: nat, now: int, delivers: Notice -> bool) returns (tally: Counts)
      requires i < |organizations|
      modifies this
      ensures organizations == old(organizations)[i := Passed(old(organizations)[i], now, delivers)]
      ensures tally == Tally(old(organizations)[i], now, delivers)
      ensures Outcome(old(organizations)[i], organizations[i], now, delivers)
      ensures Reports(tally, old(organizations)[i], organizations[i], now, delivers)
      ensures WarnsInTime(old(organizations)[i], organizations[i], now, delivers)
    {
      PassHasOutcome(organizations[i], now, delivers);
      TallyReports(organizations[i], now, delivers);
      OutcomeWarnsInTime(organizations[i], Passed(organizations[i], now, delivers), now, delivers);
      var o := organizations[i];
      if o.ceiling.None? || ActiveCount(o.monitors) <= o.ceiling.value {
        if o.sub.since.None? {
          return Counts(0, 0, 0, 0, 0, 0);
        }
        organizations := organizations[i := o.(sub := NO_CLOCK)];
        return Counts(0, 0, 1, 0, 0, 0);
      }

      tally := Counts(1, 0, 0, 0, 0, 0);
      var notice, noticedAt, since := o.sub.notice, o.sub.noticedAt, now;
      if o.sub.since.Some? {
        since := o.sub.since.value;
      } else {
        o := o.(sub := Sub(Some(now), None, None));
        organizations := organizations[i := o];
        tally := tally.(started := 1);
      }

      var excess := ActiveCount(o.monitors) - o.ceiling.value;
      var due := WarningDue(now - since);
      if Rank(notice) < Rank(Some(due)) {
        if !delivers(due) {
          return tally.(failures := 1);
        }
        organizations := organizations[i := o.(sub := Sub(Some(since), Some(due), Some(now)))];
        return tally.(sent := 1);
      }

      if notice != Some(LastDay) || now < since + GRACE_PERIOD_DAYS * DAY
         || noticedAt.None? || now < noticedAt.value + DAY {
        return;
      }
      if !delivers(Notice.Paused) {
        return tally.(failures := 1);
      }
      organizations := organizations[i := Organization(Sub(Some(since), Some(Notice.Paused), Some(now)),
                                                       PauseNewest(o.monitors, excess, now), o.ceiling)];
      return tally.(sent := 1, paused := excess);
    }

    /** The whole job. A failure is counted, and the loop goes on. */
    method RunPass(now: int, delivers: (nat, Notice) -> bool) returns (result: Counts)
      modifies this
      ensures |organizations| == |old(organizations)|
      ensures forall i :: 0 <= i < |organizations| ==>
                organizations[i] == Passed(old(organizations)[i], now, For(delivers, i))
      ensures forall i :: 0 <= i < |organizations| ==>
                Outcome(old(organizations)[i], organizations[i], now, For(delivers, i))
      ensures TotalReports(result, |organizations|, old(organizations), organizations, now, delivers)
    {
      hide Outcome, Reports, WarnsInTime, TotalReports, Passed, Tally, AboveCeiling, Announces;
      result := Counts(0, 0, 0, 0, 0, 0);
      for i := 0 to |organizations|
        invariant |organizations| == |old(organizations)|
        invariant forall k :: i <= k < |organizations| ==> organizations[k] == old(organizations)[k]
        invariant forall k :: 0 <= k < i ==>
            organizations[k] == Passed(old(organizations)[k], now, For(delivers, k))
        invariant result == Total(old(organizations)[..i], now, delivers)
      {
        assert old(organizations)[..i + 1][..i] == old(organizations)[..i];
        var tally := PassOver(i, now, For(delivers, i));
        result := Counts(result.over + tally.over, result.started + tally.started,
                         result.cleared + tally.cleared, result.sent + tally.sent,
                         result.paused + tally.paused, result.failures + tally.failures);
      }
      assert old(organizations)[..|organizations|] == old(organizations);
      TotalTells(old(organizations), organizations, |organizations|, now, delivers);
      forall i | 0 <= i < |organizations|
        ensures Outcome(old(organizations)[i], organizations[i], now, For(delivers, i))
      {
        PassHasOutcome(old(organizations)[i], now, For(delivers, i));
      }
    }
  }
}
