/**
 * The interpretation of stored check results: recorded status, automatic incidents, alerts and holds
 * (src/worker/monitor/processor.ts). `Interpret` is the specification; the class below it performs
 * the same step by queries and updates.
 */
module ResultProcessor {
  import opened Prelude
  import opened Flap

  datatype Status = Unknown | Up | Down | Degraded

  /** A stored check. Its result is never `Unknown`. */
  datatype Check = Check(id: nat, checkedAt: int, status: Status, processed: bool)

  /** The operator's settings. Times are in milliseconds. */
  datatype Config = Config(flapThreshold: nat, flapWindow: nat, flapSettle: nat)

  datatype IncidentStatus = Investigating | Identified | Monitoring | Resolved | Postmortem

  predicate Ended(status: IncidentStatus) {
    status == Resolved || status == Postmortem
  }

  datatype Post = Post(status: IncidentStatus, message: string)

  datatype Incident = Incident(auto: bool, status: IncidentStatus, posts: seq<Post>) {
    predicate Open() { !Ended(status) }
  }

  /** What the database holds about one monitor. `incidents` are the ones linked to it. */
  datatype State = State(
    status: Status,
    lastCheckAt: Option<int>,
    lastChangeAt: Option<int>,
    failures: nat,
    log: seq<Event>,
    incidents: seq<Incident>)

  const INITIAL := State(Unknown, None, None, 0, [], [])

  /**
   * One result to interpret and what the step reads besides the state: every stored check of the
   * monitor, its failure threshold, whether a maintenance window covers the check, and the clock.
   */
  datatype Input = Input(row: Check, stored: seq<Check>, alertAfter: nat, maintenance: bool, clock: int)

  /** Down and up alerts created at `from` or later. */
  function AlertsSince(log: seq<Event>, from: int): nat {
    if log == [] then 0
    else
      var latest := log[|log| - 1];
      AlertsSince(log[..|log| - 1], from)
      + if latest.kind in {MonitorDown, MonitorUp} && latest.createdAt >= from then 1 else 0
  }

  predicate ReachesFlapLimit(cfg: Config, log: seq<Event>, at: int) {
    cfg.flapThreshold >= 2 && AlertsSince(log, at - cfg.flapWindow) + 1 >= cfg.flapThreshold
  }

  /** Some stored check of the closed interval that ends at `at` was down. */
  predicate WentDownRecently(cfg: Config, stored: seq<Check>, at: int) {
    exists i :: 0 <= i < |stored| && stored[i].status == Down && at - cfg.flapSettle <= stored[i].checkedAt <= at
  }

  /** Where the incident to post to is, preferring automatic ones. */
  function ActiveIncident(incidents: seq<Incident>): (index: Option<nat>)
    ensures index.Some? ==> index.value < |incidents| && incidents[index.value].Open()
    ensures index.Some? <==> exists i :: 0 <= i < |incidents| && incidents[i].Open()
    ensures (exists i :: 0 <= i < |incidents| && incidents[i].Open() && incidents[i].auto)
            ==> incidents[index.value].auto
  {
    if incidents == [] then None
    else
      var last := |incidents| - 1;
      var earlier := ActiveIncident(incidents[..last]);
      assert forall i :: 0 <= i < last ==> incidents[..last][i] == incidents[i];
      if earlier.Some? && (incidents[earlier.value].auto || !incidents[last].auto) then earlier
      else if incidents[last].Open() then Some(last)
      else earlier
  }

  predicate Late(s: State, row: Check) {
    s.lastCheckAt.Some? && row.checkedAt < s.lastCheckAt.value
  }

  /** Whether the step records the result, rather than dropping a late one or pausing for maintenance. */
  predicate Recorded(s: State, x: Input) {
    !Late(s, x.row) && !x.maintenance
  }

  function Failures(s: State, x: Input): nat {
    if x.row.status == Down then s.failures + 1 else 0
  }

  predicate Changed(s: State, x: Input) {
    s.status != x.row.status
  }

  predicate InOutage(s: State, x: Input) {
    (x.row.status != Up || s.status != Up) && OutageAlerted(s.log)
  }

  predicate Steady(cfg: Config, s: State, x: Input) {
    if Changed(s, x) then 0 >= cfg.flapSettle
    else s.lastChangeAt.Some? && x.row.checkedAt - s.lastChangeAt.value >= cfg.flapSettle
  }

  predicate CrossesThreshold(s: State, x: Input) {
    && x.row.status == Down
    && Failures(s, x) >= x.alertAfter
    && (s.failures < x.alertAfter || !InOutage(s, x))
  }

  /** Whether the result ends an active hold. */
  predicate Settled(cfg: Config, s: State, x: Input) {
    && ActiveFlap(s.log).Some?
    && if x.row.status == Down then Steady(cfg, s, x) && Failures(s, x) >= x.alertAfter
       else s.status != Down && !WentDownRecently(cfg, x.stored, x.row.checkedAt)
  }

  predicate StartsFlapping(cfg: Config, s: State, x: Input) {
    && ActiveFlap(s.log).None?
    && CrossesThreshold(s, x)
    && !Steady(cfg, s, x)
    && ReachesFlapLimit(cfg, s.log, x.row.checkedAt)
  }

  datatype Verdict = StartHold | Hold(remind: bool) | AlertDown | AlertUp | AlertDegraded | Quiet

  function Judge(cfg: Config, s: State, x: Input): Verdict {
    var flap := ActiveFlap(s.log);
    var settled := Settled(cfg, s, x);
    if StartsFlapping(cfg, s, x) then StartHold
    else if flap.Some? && !settled then Hold(x.row.checkedAt - flap.value >= cfg.flapWindow)
    else if x.row.status == Down && (settled || CrossesThreshold(s, x)) then AlertDown
    else if x.row.status == Up && (settled || InOutage(s, x)) then AlertUp
    else if x.row.status == Degraded && (settled || (Changed(s, x) && s.status != Unknown)) then AlertDegraded
    else Quiet
  }

  /** The event a verdict enqueues, if any. */
  function Enqueued(v: Verdict): Option<Kind> {
    match v
    case StartHold => Some(MonitorFlapping)
    case Hold(remind) => if remind then Some(MonitorFlapping) else None
    case AlertDown => Some(MonitorDown)
    case AlertUp => Some(MonitorUp)
    case AlertDegraded => Some(MonitorDegraded)
    case Quiet => None
  }

  function WithPost(incidents: seq<Incident>, i: nat, status: IncidentStatus, message: string): seq<Incident>
    requires i < |incidents|
  {
    incidents[i := incidents[i].(status := status, posts := incidents[i].posts + [Post(status, message)])]
  }

  function WithOpened(incidents: seq<Incident>, message: string): seq<Incident> {
    incidents + [Incident(true, Investigating, [Post(Investigating, message)])]
  }

  /** Only humans resolve manual incidents. */
  function WithAutoResolved(incidents: seq<Incident>, message: string): seq<Incident> {
    var open := ActiveIncident(incidents);
    if open.Some? && incidents[open.value].auto then WithPost(incidents, open.value, Resolved, message)
    else incidents
  }

  const FLAPS := "Monitor keeps going down and recovering."
  const NO_RESPONSE := "Monitor is not responding."
  const STAYS_DOWN := "Monitor stopped recovering and is down."
  const RECOVERED := "Monitor has recovered automatically."
  const RESPONDS := "Monitor is responding again, with degraded performance."

  /** An open incident takes the message if it is automatic and `post` asks for it. */
  function Announced(incidents: seq<Incident>, opening: string, update: string, post: bool): seq<Incident> {
    var open := ActiveIncident(incidents);
    if open.None? then WithOpened(incidents, opening)
    else if post && incidents[open.value].auto then
      WithPost(incidents, open.value, incidents[open.value].status, update)
    else incidents
  }

  function NextIncidents(cfg: Config, s: State, x: Input): seq<Incident> {
    match Judge(cfg, s, x)
    case StartHold => Announced(s.incidents, FLAPS, FLAPS, true)
    case Hold(_) => s.incidents
    case AlertDown => Announced(s.incidents, NO_RESPONSE, STAYS_DOWN, ActiveFlap(s.log).Some?)
    case AlertUp => WithAutoResolved(s.incidents, RECOVERED)
    case _ =>
      // Degraded is an answer too, so it resolves what `NO_RESPONSE` opened.
      if x.row.status == Degraded && (Settled(cfg, s, x) || (Steady(cfg, s, x) && InOutage(s, x))) then
        WithAutoResolved(s.incidents, RESPONDS)
      else s.incidents
  }

  function NextLog(cfg: Config, s: State, x: Input): seq<Event> {
    var kind := Enqueued(Judge(cfg, s, x));
    if kind.Some? then s.log + [Event(kind.value, x.clock, x.row.checkedAt)] else s.log
  }

  /** The whole step. */
  function Interpret(cfg: Config, s: State, x: Input): State {
    if !Recorded(s, x) then s
    else
      State(x.row.status,
            Some(x.row.checkedAt),
            if Changed(s, x) then Some(x.row.checkedAt) else s.lastChangeAt,
            Failures(s, x),
            NextLog(cfg, s, x),
            NextIncidents(cfg, s, x))
  }

  /** The state after a run of inputs, oldest first. */
  function Run(cfg: Config, s: State, inputs: seq<Input>): State {
    if inputs == [] then s
    else Interpret(cfg, Run(cfg, s, inputs[..|inputs| - 1]), inputs[|inputs| - 1])
  }

  // ---------------------------------------------------------------------------------------------
  // What one result raises, told by the rows alone
  // ---------------------------------------------------------------------------------------------

  lemma {:induction false} AlertPlaces(log: seq<Event>, from: int, p: Event -> bool)
    requires forall e :: p(e) <==> e.kind in {MonitorDown, MonitorUp} && e.createdAt >= from
    ensures AlertsSince(log, from) == |Places(log, p)|
  {
    if log != [] {
      AlertPlaces(log[..|log| - 1], from, p);
      PlacesGrow(log, p);
    }
  }

  lemma {:induction false} AlertsSinceCounts(log: seq<Event>, from: int)
    ensures AlertsSince(log, from)
            == |set i | 0 <= i < |log| && log[i].kind in {MonitorDown, MonitorUp} && log[i].createdAt >= from|
  {
    var p := (e: Event) => e.kind in {MonitorDown, MonitorUp} && e.createdAt >= from;
    AlertPlaces(log, from, p);
    assert Places(log, p)
        == set i | 0 <= i < |log| && log[i].kind in {MonitorDown, MonitorUp} && log[i].createdAt >= from;
  }

  /** A late result, and one during maintenance, change nothing. */
  lemma {:induction false} DroppedResultsChangeNothing(cfg: Config, s: State, x: Input)
    requires x.maintenance || (s.lastCheckAt.Some? && x.row.checkedAt < s.lastCheckAt.value)
    ensures Interpret(cfg, s, x) == s
  {}

  /** Every other result is recorded: its status and time, when the status last changed, and the failures so far. */
  lemma {:induction false} ResultsAreRecorded(cfg: Config, s: State, x: Input)
    requires !x.maintenance && (s.lastCheckAt.Some? ==> s.lastCheckAt.value <= x.row.checkedAt)
    ensures var t := Interpret(cfg, s, x);
            && t.status == x.row.status && t.lastCheckAt == Some(x.row.checkedAt)
            && (s.status == x.row.status ==> t.lastChangeAt == s.lastChangeAt)
            && (s.status != x.row.status ==> t.lastChangeAt == Some(x.row.checkedAt))
            && (x.row.status == Down ==> t.failures == s.failures + 1)
            && (x.row.status != Down ==> t.failures == 0)
  {}

  /**
   * With no hold on, a down check with the threshold's failures, unless an alert of theirs is out, raises one
   * event, and any other down check none. That event starts a hold exactly when the monitor has been down for less
   * than the settle time and its down and up alerts of the window, with this one, number the flap threshold.
   * Otherwise it is a down alert.
   */
  lemma {:induction false} DownChecksAlertOrHold(cfg: Config, s: State, x: Input)
    requires !x.maintenance && (s.lastCheckAt.Some? ==> s.lastCheckAt.value <= x.row.checkedAt)
    requires x.row.status == Down && (s.log != [] ==> s.log[|s.log| - 1].kind != MonitorFlapping)
    ensures var window := set i | 0 <= i < |s.log| && s.log[i].kind in {MonitorDown, MonitorUp}
                                  && s.log[i].createdAt >= x.row.checkedAt - cfg.flapWindow;
            var alerted := exists i :: Unanswered(s.log, i);
            var crosses := s.failures + 1 >= x.alertAfter && (s.failures < x.alertAfter || !alerted);
            var steady := if s.status != Down then cfg.flapSettle == 0
                          else s.lastChangeAt.Some? && x.row.checkedAt - s.lastChangeAt.value >= cfg.flapSettle;
            var flaps := !steady && cfg.flapThreshold >= 2 && |window| + 1 >= cfg.flapThreshold;
            Interpret(cfg, s, x).log
            == s.log + if crosses then [Event(if flaps then MonitorFlapping else MonitorDown, x.clock, x.row.checkedAt)]
                       else []
  {
    AlertsSinceCounts(s.log, x.row.checkedAt - cfg.flapWindow);
    OutageMeansUnanswered(s.log);
  }

  /**
   * With no hold on, an up check after another status raises the recovery alert exactly when some down or flapping
   * message has none yet, and a degraded check raises its alert exactly when it is the first after up or down.
   */
  lemma {:induction false} AnswersAlertOnce(cfg: Config, s: State, x: Input)
    requires !x.maintenance && (s.lastCheckAt.Some? ==> s.lastCheckAt.value <= x.row.checkedAt)
    requires x.row.status in {Up, Degraded} && (s.log != [] ==> s.log[|s.log| - 1].kind != MonitorFlapping)
    ensures var t := Interpret(cfg, s, x);
            && (x.row.status == Up ==>
                  t.log == s.log + if s.status != Up && exists i :: Unanswered(s.log, i)
                                   then [Event(MonitorUp, x.clock, x.row.checkedAt)] else [])
            && (x.row.status == Degraded ==>
                  t.log == s.log + if s.status in {Up, Down}
                                   then [Event(MonitorDegraded, x.clock, x.row.checkedAt)] else [])
  {
    OutageMeansUnanswered(s.log);
  }

  /**
   * A hold ends with an alert of the status exactly when the monitor has been down for the settle time and the
   * threshold's failures, or was not down at the last check nor at any stored check of the settle time. Until then a
   * reminder goes out once the flapping message before it is a window old, and nothing else.
   */
  lemma {:induction false} HoldsEndExactlyWhen(cfg: Config, s: State, x: Input)
    requires !x.maintenance && (s.lastCheckAt.Some? ==> s.lastCheckAt.value <= x.row.checkedAt)
    requires x.row.status != Unknown && s.log != [] && s.log[|s.log| - 1].kind == MonitorFlapping
    ensures var steady := if s.status != Down then cfg.flapSettle == 0
                          else s.lastChangeAt.Some? && x.row.checkedAt - s.lastChangeAt.value >= cfg.flapSettle;
            var quiet := s.status != Down && forall c :: c in x.stored && c.status == Down ==>
                           c.checkedAt < x.row.checkedAt - cfg.flapSettle || x.row.checkedAt < c.checkedAt;
            var ends := if x.row.status == Down then steady && s.failures + 1 >= x.alertAfter else quiet;
            var kind := match x.row.status
              case Down => MonitorDown
              case Up => MonitorUp
              case _ => MonitorDegraded;
            var reminds := x.row.checkedAt - s.log[|s.log| - 1].createdAt >= cfg.flapWindow;
            Interpret(cfg, s, x).log
            == s.log + if ends then [Event(kind, x.clock, x.row.checkedAt)]
                       else if reminds then [Event(MonitorFlapping, x.clock, x.row.checkedAt)] else []
  {
    if i :| 0 <= i < |x.stored| && x.stored[i].status == Down
            && x.row.checkedAt - cfg.flapSettle <= x.stored[i].checkedAt <= x.row.checkedAt {
      assert x.stored[i] in x.stored;
    }
    if c :| c in x.stored && c.status == Down
            && x.row.checkedAt - cfg.flapSettle <= c.checkedAt <= x.row.checkedAt {
      var i :| 0 <= i < |x.stored| && x.stored[i] == c;
      assert WentDownRecently(cfg, x.stored, x.row.checkedAt);
    }
  }

  ghost predicate OpenAndAuto(i: Incident) {
    i.auto && i.status !in {Resolved, Postmortem}
  }

  /** A new automatic incident when none is open, or else at most a post to an open automatic one. */
  ghost predicate OpensOrPosts(before: seq<Incident>, after: seq<Incident>, opening: string, update: string, post: bool)
  {
    if forall i :: 0 <= i < |before| ==> before[i].status in {Resolved, Postmortem} then
      after == before + [Incident(true, Investigating, [Post(Investigating, opening)])]
    else if post && exists i :: 0 <= i < |before| && OpenAndAuto(before[i]) then
      exists i :: 0 <= i < |before| && OpenAndAuto(before[i])
                  && after == before[i := before[i].(posts := before[i].posts + [Post(before[i].status, update)])]
    else after == before
  }

  /** An open automatic incident is resolved with a post that says so, if there is one. Nothing else changes. */
  ghost predicate ResolvesOne(before: seq<Incident>, after: seq<Incident>, message: string) {
    if exists i :: 0 <= i < |before| && OpenAndAuto(before[i]) then
      exists i :: 0 <= i < |before| && OpenAndAuto(before[i])
                  && after == before[i := before[i].(status := Resolved,
                                                     posts := before[i].posts + [Post(Resolved, message)])]
    else after == before
  }

  lemma {:induction false} AnnouncedOpensOrPosts(incidents: seq<Incident>, opening: string, update: string, post: bool)
    ensures OpensOrPosts(incidents, Announced(incidents, opening, update, post), opening, update, post)
  {
    var open := ActiveIncident(incidents);
    if open.None? {
      forall i | 0 <= i < |incidents| ensures Ended(incidents[i].status) { assert !incidents[i].Open(); }
    } else {
      assert incidents[open.value].Open();
      if i :| 0 <= i < |incidents| && incidents[i].auto && !Ended(incidents[i].status) {
        assert incidents[i].Open() && incidents[i].auto;
      }
    }
  }

  lemma {:induction false} AutoResolvedResolvesOne(incidents: seq<Incident>, message: string)
    ensures ResolvesOne(incidents, WithAutoResolved(incidents, message), message)
  {
    if i :| 0 <= i < |incidents| && incidents[i].auto && !Ended(incidents[i].status) {
      assert incidents[i].Open() && incidents[i].auto;
    }
  }

  /** The event the step adds to the log, if any. */
  function Raised(before: seq<Event>, after: seq<Event>): Option<Kind> {
    if |after| > |before| then Some(after[|after| - 1].kind) else None
  }

  /** The step's verdict told by the event it adds: only a hold that goes on without a reminder adds none quietly. */
  lemma {:induction false} RaisedTellsVerdict(cfg: Config, s: State, x: Input)
    requires Recorded(s, x)
    ensures var raised := Raised(s.log, Interpret(cfg, s, x).log);
            match Judge(cfg, s, x)
            case StartHold => raised == Some(MonitorFlapping) && ActiveFlap(s.log).None?
            case Hold(remind) => raised == (if remind then Some(MonitorFlapping) else None) && ActiveFlap(s.log).Some?
            case AlertDown => raised == Some(MonitorDown)
            case AlertUp => raised == Some(MonitorUp)
            case AlertDegraded => raised == Some(MonitorDegraded) && x.row.status == Degraded
            case Quiet => raised == None
  {}

  lemma {:induction false} AlertsMoveIncidents(cfg: Config, s: State, x: Input)
    requires Recorded(s, x)
    ensures var t := Interpret(cfg, s, x);
            var held, raised := ActiveFlap(s.log).Some?, Raised(s.log, t.log);
            && (raised == Some(MonitorFlapping) && !held ==>
                  t.incidents == Announced(s.incidents, FLAPS, FLAPS, true))
            && (raised == Some(MonitorFlapping) && held ==> t.incidents == s.incidents)
            && (raised == Some(MonitorDown) ==> t.incidents == Announced(s.incidents, NO_RESPONSE, STAYS_DOWN, held))
            && (raised == Some(MonitorUp) ==> t.incidents == WithAutoResolved(s.incidents, RECOVERED))
            && (raised !in {Some(MonitorFlapping), Some(MonitorDown), Some(MonitorUp)} ==>
                  t.incidents
                  == if x.row.status == Degraded
                        && (if held then raised.Some? else Steady(cfg, s, x) && OutageAlerted(s.log))
                     then WithAutoResolved(s.incidents, RESPONDS)
                     else s.incidents)
  {
    RaisedTellsVerdict(cfg, s, x);
  }

  /**
   * Incidents follow the alerts. A down alert, and the start of a hold, leave an automatic incident or a manual one
   * open, and post to an automatic one when a hold starts or when the alert ends one. A recovery alert resolves an
   * automatic one, and so does a degraded check that ends a hold or that, with the monitor degraded for the settle
   * time, finds an outage alerted. No other result touches incidents.
   */
  lemma {:induction false} IncidentsFollowAlerts(cfg: Config, s: State, x: Input)
    requires !x.maintenance && (s.lastCheckAt.Some? ==> s.lastCheckAt.value <= x.row.checkedAt)
    ensures var t := Interpret(cfg, s, x);
            var held := s.log != [] && s.log[|s.log| - 1].kind == MonitorFlapping;
            var raised := if |t.log| > |s.log| then Some(t.log[|t.log| - 1].kind) else None;
            var steady := if s.status != Degraded then cfg.flapSettle == 0
                          else s.lastChangeAt.Some? && x.row.checkedAt - s.lastChangeAt.value >= cfg.flapSettle;
            var responds := && x.row.status == Degraded
                            && if held then raised.Some? else steady && exists i :: Unanswered(s.log, i);
            if raised == Some(MonitorFlapping) && held then t.incidents == s.incidents
            else if raised == Some(MonitorFlapping) then OpensOrPosts(s.incidents, t.incidents, FLAPS, FLAPS, true)
            else if raised == Some(MonitorDown) then
              OpensOrPosts(s.incidents, t.incidents, NO_RESPONSE, STAYS_DOWN, held)
            else if raised == Some(MonitorUp) then ResolvesOne(s.incidents, t.incidents, RECOVERED)
            else if responds then ResolvesOne(s.incidents, t.incidents, RESPONDS)
            else t.incidents == s.incidents
  {
    OutageMeansUnanswered(s.log);
    AlertsMoveIncidents(cfg, s, x);
    var t := Interpret(cfg, s, x);
    var raised := Raised(s.log, t.log);
    if raised == Some(MonitorFlapping) {
      AnnouncedOpensOrPosts(s.incidents, FLAPS, FLAPS, true);
    } else if raised == Some(MonitorDown) {
      AnnouncedOpensOrPosts(s.incidents, NO_RESPONSE, STAYS_DOWN, ActiveFlap(s.log).Some?);
    } else if raised == Some(MonitorUp) {
      AutoResolvedResolvesOne(s.incidents, RECOVERED);
    } else {
      AutoResolvedResolvesOne(s.incidents, RESPONDS);
    }
  }

  // ---------------------------------------------------------------------------------------------
  // Which rows a processor takes, and in what order
  // ---------------------------------------------------------------------------------------------

  predicate Before(a: Check, b: Check) {
    a.checkedAt < b.checkedAt || (a.checkedAt == b.checkedAt && a.id <= b.id)
  }

  function InsertSorted(rows: seq<Check>, c: Check): seq<Check> {
    if rows == [] || !Before(c, rows[|rows| - 1]) then rows + [c]
    else InsertSorted(rows[..|rows| - 1], c) + [rows[|rows| - 1]]
  }

  /** The unprocessed rows, oldest first and then by id. */
  function Unprocessed(stored: seq<Check>): seq<Check> {
    if stored == [] then []
    else
      var rest := Unprocessed(stored[..|stored| - 1]);
      var c := stored[|stored| - 1];
      if c.processed then rest else InsertSorted(rest, c)
  }

  function MarkProcessed(stored: seq<Check>): seq<Check> {
    seq(|stored|, i requires 0 <= i < |stored| => stored[i].(processed := true))
  }

  lemma {:induction false} InsertSortedKeepsOrder(rows: seq<Check>, c: Check)
    requires forall i, j :: 0 <= i < j < |rows| ==> Before(rows[i], rows[j])
    ensures var r := InsertSorted(rows, c);
            && multiset(r) == multiset(rows) + multiset{c}
            && forall i, j :: 0 <= i < j < |r| ==> Before(r[i], r[j])
  {
    if rows != [] && Before(c, rows[|rows| - 1]) {
      var init, last := rows[..|rows| - 1], rows[|rows| - 1];
      InsertSortedKeepsOrder(init, c);
      assert rows == init + [last];
      LastStaysLast(init, InsertSorted(init, c), c, last);
    }
  }

  lemma {:induction false} LastStaysLast(init: seq<Check>, r: seq<Check>, c: Check, last: Check)
    requires multiset(r) == multiset(init) + multiset{c}
    requires Before(c, last) && forall i :: 0 <= i < |init| ==> Before(init[i], last)
    requires forall i, j :: 0 <= i < j < |r| ==> Before(r[i], r[j])
    ensures multiset(r + [last]) == multiset(init + [last]) + multiset{c}
    ensures forall i, j :: 0 <= i < j < |r + [last]| ==> Before((r + [last])[i], (r + [last])[j])
  {
    forall i | 0 <= i < |r| ensures Before(r[i], last) {
      assert r[i] in multiset(r);
      assert r[i] in multiset(init) || r[i] == c;
    }
  }

  /** A processor takes every unprocessed row once, in the order of check times. */
  lemma {:induction false} UnprocessedIsSortedSelection(stored: seq<Check>)
    ensures var rows := Unprocessed(stored);
            && (forall i, j :: 0 <= i < j < |rows| ==>
                  || rows[i].checkedAt < rows[j].checkedAt
                  || (rows[i].checkedAt == rows[j].checkedAt && rows[i].id <= rows[j].id))
            && (forall c :: multiset(rows)[c] == if c.processed then 0 else multiset(stored)[c])
  {
    if stored != [] {
      var init, c := stored[..|stored| - 1], stored[|stored| - 1];
      UnprocessedIsSortedSelection(init);
      assert stored == init + [c];
      if !c.processed {
        InsertSortedKeepsOrder(Unprocessed(init), c);
      }
    }
  }

  /** Whoever comes second finds nothing: the first processor marked what it interpreted. */
  lemma {:induction false} NothingLeftToProcess(stored: seq<Check>)
    ensures Unprocessed(MarkProcessed(stored)) == []
  {
    if stored != [] {
      assert MarkProcessed(stored)[..|stored| - 1] == MarkProcessed(stored[..|stored| - 1]);
      NothingLeftToProcess(stored[..|stored| - 1]);
    }
  }

  /** The inputs a batch feeds to `Interpret`: the i-th row reads the clock as `ticks(i)`. */
  function Batch(stored: seq<Check>, alertAfter: nat, maintenance: int -> bool, ticks: nat -> int): seq<Input> {
    var rows := Unprocessed(stored);
    seq(|rows|, i requires 0 <= i < |rows| =>
      Input(rows[i], stored, alertAfter, maintenance(rows[i].checkedAt), ticks(i)))
  }

  // ---------------------------------------------------------------------------------------------
  // The processor
  // ---------------------------------------------------------------------------------------------

  /** The rows of one monitor, updated in place under its lock. */
  class Processor {
    const cfg: Config
    var status: Status
    var lastCheckAt: Option<int>
    var lastChangeAt: Option<int>
    var failures: nat
    var log: seq<Event>
    var incidents: seq<Incident>
    var stored: seq<Check>

    constructor (cfg: Config)
      ensures this.cfg == cfg && View() == INITIAL && stored == []
    {
      this.cfg := cfg;
      status, lastCheckAt, lastChangeAt, failures := Unknown, None, None, 0;
      log, incidents, stored := [], [], [];
    }

    function View(): State
      reads this
    {
      State(status, lastCheckAt, lastChangeAt, failures, log, incidents)
    }

    method FlapLimitReached(at: int) returns (reached: bool)
      ensures reached == ReachesFlapLimit(cfg, log, at)
      ensures reached <==>
                && cfg.flapThreshold >= 2
                && |set i | 0 <= i < |log| && log[i].kind in {MonitorDown, MonitorUp}
                            && log[i].createdAt >= at - cfg.flapWindow| + 1 >= cfg.flapThreshold
    {
      AlertsSinceCounts(log, at - cfg.flapWindow);
      if cfg.flapThreshold < 2 {
        return false;
      }
      var changes: nat := 0;
      for i := 0 to |log|
        invariant changes == AlertsSince(log[..i], at - cfg.flapWindow)
      {
        assert log[..i + 1][..i] == log[..i];
        if log[i].kind in {MonitorDown, MonitorUp} && log[i].createdAt >= at - cfg.flapWindow {
          changes := changes + 1;
        }
      }
      assert log[..|log|] == log;
      return changes + 1 >= cfg.flapThreshold;
    }

    method DownCheckSince(at: int) returns (down: bool)
      ensures down == WentDownRecently(cfg, stored, at)
    {
      for i := 0 to |stored|
        invariant !WentDownRecently(cfg, stored[..i], at)
      {
        if stored[i].status == Down && at - cfg.flapSettle <= stored[i].checkedAt <= at {
          return true;
        }
      }
      assert stored[..|stored|] == stored;
      return false;
    }

    method Enqueue(kind: Kind, row: Check, clock: int)
      modifies this`log
      ensures log == old(log) + [Event(kind, clock, row.checkedAt)]
    {
      log := log + [Event(kind, clock, row.checkedAt)];
    }

    method Announce(opening: string, update: string, post: bool)
      modifies this`incidents
      ensures incidents == Announced(old(incidents), opening, update, post)
    {
      var open := ActiveIncident(incidents);
      if open.None? {
        incidents := incidents + [Incident(true, Investigating, [Post(Investigating, opening)])];
      } else if post && incidents[open.value].auto {
        var i := incidents[open.value];
        incidents := incidents[open.value := i.(posts := i.posts + [Post(i.status, update)])];
      }
    }

    method ResolveAutoIncident(message: string)
      modifies this`incidents
      ensures incidents == WithAutoResolved(old(incidents), message)
    {
      var open := ActiveIncident(incidents);
      if open.None? || !incidents[open.value].auto {
        return;
      }
      var i := incidents[open.value];
      incidents := incidents[open.value := i.(status := Resolved, posts := i.posts + [Post(Resolved, message)])];
    }

    /** Whether the result ends an active hold, or else starts one. Reads what the event log says. */
    method AssessFlapping(row: Check, reachesThreshold: bool, crossesThreshold: bool, steady: bool,
                          previousStatus: Status, ghost s: State, ghost x: Input)
      returns (settled: bool, startsFlapping: bool)
      requires s.log == log && x.stored == stored && x.row == row && s.status == previousStatus
      requires reachesThreshold == (Failures(s, x) >= x.alertAfter)
      requires crossesThreshold == CrossesThreshold(s, x)
      requires steady == Steady(cfg, s, x)
      ensures settled == Settled(cfg, s, x)
      ensures startsFlapping == StartsFlapping(cfg, s, x)
    {
      settled, startsFlapping := false, false;
      if ActiveFlap(log).Some? {
        if row.status == Down {
          settled := steady && reachesThreshold;
        } else if previousStatus != Down {
          var down := DownCheckSince(row.checkedAt);
          settled := !down;
        }
      } else if crossesThreshold && !steady {
        startsFlapping := FlapLimitReached(row.checkedAt);
      }
    }

    /** Alerts, holds and incidents for a recorded result. `s` is the state before it. */
    method Act(row: Check, alertAfter: nat, clock: int, previousStatus: Status, previousFailures: nat,
               previousChange: Option<int>, ghost s: State, ghost x: Input)
      requires s.log == log && s.incidents == incidents && s.status == previousStatus
      requires s.failures == previousFailures && s.lastChangeAt == previousChange
      requires x.row == row && x.stored == stored && x.alertAfter == alertAfter && x.clock == clock
      modifies this`log, this`incidents
      ensures log == NextLog(cfg, s, x)
      ensures incidents == NextIncidents(cfg, s, x)
    {
      var statusChanged := previousStatus != row.status;
      var consecutiveFailures := if row.status == Down then previousFailures + 1 else 0;
      var inOutage := (row.status != Up || previousStatus != Up) && OutageAlerted(log);
      var reachesThreshold := consecutiveFailures >= alertAfter;
      var crossesThreshold :=
        row.status == Down && reachesThreshold && (previousFailures < alertAfter || !inOutage);
      var steady :=
        if statusChanged then 0 >= cfg.flapSettle
        else previousChange.Some? && row.checkedAt - previousChange.value >= cfg.flapSettle;
      var flap := ActiveFlap(log);
      var settled, startsFlapping :=
        AssessFlapping(row, reachesThreshold, crossesThreshold, steady, previousStatus, s, x);

      if startsFlapping {
        Enqueue(MonitorFlapping, row, clock);
        Announce(FLAPS, FLAPS, true);
      } else if flap.Some? && !settled {
        if row.checkedAt - flap.value >= cfg.flapWindow {
          Enqueue(MonitorFlapping, row, clock);
        }
      } else if row.status == Down && (settled || crossesThreshold) {
        Enqueue(MonitorDown, row, clock);
        Announce(NO_RESPONSE, STAYS_DOWN, flap.Some?);
      } else if row.status == Up && (settled || inOutage) {
        Enqueue(MonitorUp, row, clock);
        ResolveAutoIncident(RECOVERED);
      } else if row.status == Degraded {
        if settled || (statusChanged && previousStatus != Unknown) {
          Enqueue(MonitorDegraded, row, clock);
        }
        if settled || (steady && inOutage) {
          ResolveAutoIncident(RESPONDS);
        }
      }
    }

    /** Interprets one result, as the specification says. */
    method InterpretRow(row: Check, alertAfter: nat, maintenance: bool, clock: int)
      modifies this`status, this`lastCheckAt, this`lastChangeAt, this`failures, this`log, this`incidents
      ensures View() == Interpret(cfg, old(View()), Input(row, stored, alertAfter, maintenance, clock))
    {
      if lastCheckAt.Some? && row.checkedAt < lastCheckAt.value {
        return;
      }
      if maintenance {
        return;
      }

      ghost var s := View();
      var previousStatus, previousFailures, previousChange := status, failures, lastChangeAt;
      status := row.status;
      lastCheckAt := Some(row.checkedAt);
      if previousStatus != row.status {
        lastChangeAt := Some(row.checkedAt);
      }
      failures := if row.status == Down then previousFailures + 1 else 0;
      Act(row, alertAfter, clock, previousStatus, previousFailures, previousChange,
          s, Input(row, stored, alertAfter, maintenance, clock));
    }

    /** Interprets every unprocessed result and marks it processed, in one transaction. */
    method ProcessResults(alertAfter: nat, maintenance: int -> bool, ticks: nat -> int) returns (processed: nat)
      modifies this
      ensures View() == Run(cfg, old(View()), Batch(old(stored), alertAfter, maintenance, ticks))
      ensures stored == MarkProcessed(old(stored))
      ensures processed == |Unprocessed(old(stored))|
    {
      var rows := Unprocessed(stored);
      ghost var inputs := Batch(stored, alertAfter, maintenance, ticks);
      for i := 0 to |rows|
        invariant stored == old(stored)
        invariant View() == Run(cfg, old(View()), inputs[..i])
      {
        assert inputs[..i + 1][..i] == inputs[..i];
        InterpretRow(rows[i], alertAfter, maintenance(rows[i].checkedAt), ticks(i));
      }
      assert inputs[..|rows|] == inputs;
      stored := seq(|stored|, i requires 0 <= i < |stored| reads this => stored[i].(processed := true));
      return |rows|;
    }
  }
}
