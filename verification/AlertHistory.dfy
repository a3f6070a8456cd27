/**
 * What the result processor promises over whole runs: who is told of an outage, when, and how often.
 */
module AlertHistory {
  import opened Prelude
  import opened Flap
  import opened ResultProcessor

  /** Results come from a check, and the database clock neither stands still nor runs behind them. */
  ghost predicate Plausible(inputs: seq<Input>) {
    && (forall i :: 0 <= i < |inputs| ==> inputs[i].row.status != Unknown)
    && (forall i :: 0 <= i < |inputs| ==> inputs[i].row.checkedAt <= inputs[i].clock)
    && (forall i, j :: 0 <= i < j < |inputs| ==> inputs[i].clock < inputs[j].clock)
  }

  ghost predicate FixedThreshold(inputs: seq<Input>, k: nat) {
    forall i :: 0 <= i < |inputs| ==> inputs[i].alertAfter == k
  }

  /** What every reached state satisfies, whatever the settings. `now` is the newest clock reading. */
  ghost predicate Consistent(s: State, now: Option<int>) {
    && (s.failures > 0 <==> s.status == Down)
    && (s.status == Unknown ==> s.lastCheckAt.None? && s.log == [])
    && (s.status != Unknown ==>
          s.lastCheckAt.Some? && s.lastChangeAt.Some? && s.lastChangeAt.value <= s.lastCheckAt.value)
    && Timed(s.log)
    && (forall i :: 0 <= i < |s.log| ==>
          && s.lastCheckAt.Some? && s.log[i].checkedAt <= s.lastCheckAt.value
          && now.Some? && s.log[i].createdAt <= now.value)
  }

  lemma {:induction false} ConsistentStep(cfg: Config, s: State, now: Option<int>, x: Input)
    requires Consistent(s, now)
    requires x.row.status != Unknown && x.row.checkedAt <= x.clock
    requires now.Some? ==> now.value < x.clock
    ensures Consistent(Interpret(cfg, s, x), Some(x.clock))
  {}

  ghost function Newest(inputs: seq<Input>): Option<int> {
    if inputs == [] then None else Some(inputs[|inputs| - 1].clock)
  }

  lemma {:induction false} RunsAreConsistent(cfg: Config, inputs: seq<Input>)
    requires Plausible(inputs)
    ensures Consistent(Run(cfg, INITIAL, inputs), Newest(inputs))
  {
    if inputs != [] {
      var before := inputs[..|inputs| - 1];
      RunsAreConsistent(cfg, before);
      ConsistentStep(cfg, Run(cfg, INITIAL, before), Newest(before), inputs[|inputs| - 1]);
    }
  }

  // ---------------------------------------------------------------------------------------------
  // Outages and recoveries
  // ---------------------------------------------------------------------------------------------

  /** Every recovery alert answers an outage that people were told of. */
  ghost predicate RecoveriesAnswerOutages(log: seq<Event>) {
    forall i :: 0 <= i < |log| && log[i].kind == MonitorUp ==> OutageAlerted(log[..i])
  }

  /** A monitor recorded as up whose alerts are not held owes nobody a recovery alert. */
  ghost predicate NoForgottenOutage(s: State) {
    s.status == Up && ActiveFlap(s.log).None? ==> !OutageAlerted(s.log)
  }

  lemma {:induction false} OutageStep(cfg: Config, s: State, x: Input)
    requires RecoveriesAnswerOutages(s.log) && NoForgottenOutage(s)
    ensures RecoveriesAnswerOutages(Interpret(cfg, s, x).log) && NoForgottenOutage(Interpret(cfg, s, x))
    ensures Recorded(s, x) && x.row.status == Down && Failures(s, x) >= x.alertAfter
            ==> OutageAlerted(Interpret(cfg, s, x).log)
  {
    var kind := Enqueued(Judge(cfg, s, x));
    if Recorded(s, x) && kind.Some? {
      var e := Event(kind.value, x.clock, x.row.checkedAt);
      AppendedEvent(s.log, e);
      forall i | 0 <= i < |s.log + [e]| && (s.log + [e])[i].kind == MonitorUp
        ensures OutageAlerted((s.log + [e])[..i])
      {
        assert (s.log + [e])[..i] == s.log[..i];
        assert s.log[..|s.log|] == s.log;
      }
    }
  }

  /**
   * Over every run, with the threshold free to change between checks: each recovery alert follows an
   * outage alert, an outage at or past the threshold has been alerted, and a monitor that is up and
   * not flapping has no alerted outage left open.
   */
  lemma {:induction false} OutagesAlertAndRecover(cfg: Config, inputs: seq<Input>)
    ensures RecoveriesAnswerOutages(Run(cfg, INITIAL, inputs).log)
    ensures NoForgottenOutage(Run(cfg, INITIAL, inputs))
    ensures inputs != [] ==>
              var s := Run(cfg, INITIAL, inputs[..|inputs| - 1]);
              var x := inputs[|inputs| - 1];
              Recorded(s, x) && x.row.status == Down && Failures(s, x) >= x.alertAfter
              ==> OutageAlerted(Run(cfg, INITIAL, inputs).log)
  {
    if inputs != [] {
      var before := inputs[..|inputs| - 1];
      OutagesAlertAndRecover(cfg, before);
      OutageStep(cfg, Run(cfg, INITIAL, before), inputs[|inputs| - 1]);
    }
  }

  // ---------------------------------------------------------------------------------------------
  // One alert per outage, by a deadline
  // ---------------------------------------------------------------------------------------------

  function DownAlerts(log: seq<Event>): nat {
    if log == [] then 0
    else DownAlerts(log[..|log| - 1]) + if log[|log| - 1].kind == MonitorDown then 1 else 0
  }

  lemma {:induction false} DownAlertsAppend(log: seq<Event>, e: Event)
    ensures DownAlerts(log + [e]) == DownAlerts(log) + if e.kind == MonitorDown then 1 else 0
  {
    assert (log + [e])[..|log|] == log;
  }

  /** An uninterrupted run of interpreted down checks that starts a new outage in state `s`. */
  ghost predicate DownRun(s: State, inputs: seq<Input>, k: nat) {
    && s.status != Down && s.failures == 0
    && FixedThreshold(inputs, k)
    && (forall i :: 0 <= i < |inputs| ==> inputs[i].row.status == Down && !inputs[i].maintenance)
    && (forall i :: 0 <= i < |inputs| && s.lastCheckAt.Some? ==> s.lastCheckAt.value <= inputs[i].row.checkedAt)
    && (forall i, j :: 0 <= i < j < |inputs| ==> inputs[i].row.checkedAt <= inputs[j].row.checkedAt)
  }

  /** How long the outage has lasted at its newest check. */
  function Lasted(inputs: seq<Input>): int
    requires inputs != []
  {
    inputs[|inputs| - 1].row.checkedAt - inputs[0].row.checkedAt
  }

  /** Whether the outage's alert waits: a hold was active, or the `k`-th failure started one. */
  ghost predicate HeldBack(cfg: Config, s: State, inputs: seq<Input>, k: nat)
    requires 1 <= k <= |inputs|
  {
    || ActiveFlap(s.log).Some?
    || (Lasted(inputs[..k]) < cfg.flapSettle && ReachesFlapLimit(cfg, s.log, inputs[k - 1].row.checkedAt))
  }

  ghost predicate AlertDue(cfg: Config, s: State, inputs: seq<Input>, k: nat)
    requires k >= 1
  {
    |inputs| >= k && (HeldBack(cfg, s, inputs, k) ==> Lasted(inputs) >= cfg.flapSettle)
  }

  /** Where a down run stands: `r` after the checks `inputs` of an outage that began in `s`. */
  ghost predicate Shape(cfg: Config, s: State, inputs: seq<Input>, k: nat, r: State)
    requires k >= 1 && inputs != []
  {
    && r.status == Down && r.failures == |inputs|
    && r.lastChangeAt == Some(inputs[0].row.checkedAt)
    && r.lastCheckAt == Some(inputs[|inputs| - 1].row.checkedAt)
    && if AlertDue(cfg, s, inputs, k) then
         && DownAlerts(r.log) == DownAlerts(s.log) + 1
         && r.log != [] && r.log[|r.log| - 1].kind == MonitorDown
       else
         && DownAlerts(r.log) == DownAlerts(s.log)
         && if ActiveFlap(s.log).None? && |inputs| < k then r.log == s.log else ActiveFlap(r.log).Some?
  }

  lemma {:induction false} DownStep(cfg: Config, p: State, x: Input)
    requires x.row.status == Down && Recorded(p, x) && x.alertAfter >= 1
    ensures var r := Interpret(cfg, p, x);
            var flap, reaches := ActiveFlap(p.log).Some?, p.failures + 1 >= x.alertAfter;
            && (flap && !(Steady(cfg, p, x) && reaches) ==>
                  ActiveFlap(r.log).Some? && DownAlerts(r.log) == DownAlerts(p.log))
            && (flap && Steady(cfg, p, x) && reaches ==> AlertedNow(p, r))
            && (!flap && !CrossesThreshold(p, x) ==> r.log == p.log)
            && (!flap && StartsFlapping(cfg, p, x) ==>
                  ActiveFlap(r.log).Some? && DownAlerts(r.log) == DownAlerts(p.log))
            && (!flap && CrossesThreshold(p, x) && !StartsFlapping(cfg, p, x) ==> AlertedNow(p, r))
  {
    var kind := Enqueued(Judge(cfg, p, x));
    if kind.Some? {
      DownAlertsAppend(p.log, Event(kind.value, x.clock, x.row.checkedAt));
    }
  }

  ghost predicate AlertedNow(p: State, r: State) {
    DownAlerts(r.log) == DownAlerts(p.log) + 1 && r.log != [] && r.log[|r.log| - 1].kind == MonitorDown
  }

  /** The first check of the outage. */
  lemma {:induction false} ShapeStart(cfg: Config, s: State, inputs: seq<Input>, k: nat)
    requires k >= 1 && cfg.flapSettle >= 1 && |inputs| == 1 && DownRun(s, inputs, k)
    ensures Shape(cfg, s, inputs, k, Interpret(cfg, s, inputs[0]))
  {
    assert inputs[..1] == inputs;
    DownStep(cfg, s, inputs[0]);
  }

  lemma {:induction false} DownCheck(cfg: Config, s: State, inputs: seq<Input>, k: nat, p: State)
    requires k >= 1 && cfg.flapSettle >= 1 && |inputs| >= 2 && DownRun(s, inputs, k)
    requires Shape(cfg, s, inputs[..|inputs| - 1], k, p)
    ensures var x := inputs[|inputs| - 1];
            && x.row.status == Down && x.alertAfter == k && Recorded(p, x)
            && Failures(p, x) == |inputs|
            && Steady(cfg, p, x) == (Lasted(inputs) >= cfg.flapSettle)
  {}

  lemma {:induction false} DueAfter(cfg: Config, s: State, inputs: seq<Input>, k: nat)
    requires k >= 1 && |inputs| > k
    ensures HeldBack(cfg, s, inputs, k) == HeldBack(cfg, s, inputs[..|inputs| - 1], k)
  {
    assert inputs[..k] == inputs[..|inputs| - 1][..k];
  }

  /** One more check. */
  lemma {:induction false} ShapeStep(cfg: Config, s: State, inputs: seq<Input>, k: nat, p: State)
    requires k >= 1 && cfg.flapSettle >= 1 && |inputs| >= 2 && DownRun(s, inputs, k)
    requires Shape(cfg, s, inputs[..|inputs| - 1], k, p)
    ensures Shape(cfg, s, inputs, k, Interpret(cfg, p, inputs[|inputs| - 1]))
  {
    DownCheck(cfg, s, inputs, k, p);
    DownStep(cfg, p, inputs[|inputs| - 1]);
    if |inputs| > k {
      DueAfter(cfg, s, inputs, k);
    } else if |inputs| == k {
      assert inputs[..k] == inputs;
    }
    if ActiveFlap(p.log).Some? {
      FlapIsOutage(p.log);
    }
  }

  lemma {:induction false} DownRunShape(cfg: Config, s: State, inputs: seq<Input>, k: nat)
    requires k >= 1 && cfg.flapSettle >= 1 && inputs != [] && DownRun(s, inputs, k)
    ensures Shape(cfg, s, inputs, k, Run(cfg, s, inputs))
  {
    if |inputs| == 1 {
      assert Run(cfg, s, inputs[..0]) == s;
      ShapeStart(cfg, s, inputs, k);
    } else {
      DownRunShape(cfg, s, inputs[..|inputs| - 1], k);
      ShapeStep(cfg, s, inputs, k, Run(cfg, s, inputs[..|inputs| - 1]));
    }
  }

  /**
   * An outage raises one down alert or none, and which one is decided by its length alone: it must
   * reach the threshold and, if its alert is held back, last the settle time.
   */
  lemma {:induction false} OneAlertPerOutage(cfg: Config, s: State, inputs: seq<Input>, k: nat)
    requires k >= 1 && cfg.flapSettle >= 1 && DownRun(s, inputs, k)
    ensures DownAlerts(Run(cfg, s, inputs).log) - DownAlerts(s.log)
            == if AlertDue(cfg, s, inputs, k) then 1 else 0
  {
    if inputs != [] {
      DownRunShape(cfg, s, inputs, k);
    }
  }

  lemma {:induction false} OneAlertSoFar(cfg: Config, s: State, inputs: seq<Input>, k: nat, n: nat)
    requires k >= 1 && cfg.flapSettle >= 1 && DownRun(s, inputs, k) && n <= |inputs|
    ensures DownAlerts(Run(cfg, s, inputs[..n]).log) - DownAlerts(s.log)
            == if AlertDue(cfg, s, inputs[..n], k) then 1 else 0
  {
    OneAlertPerOutage(cfg, s, inputs[..n], k);
  }

  /** Down checks under a fixed threshold, starting anywhere: in an outage, a hold, or after a change of threshold. */
  ghost predicate Downs(inputs: seq<Input>, k: nat) {
    && FixedThreshold(inputs, k)
    && (forall i :: 0 <= i < |inputs| ==> inputs[i].row.status == Down && !inputs[i].maintenance)
  }

  /** Since the run began nobody was alerted, or the one alert is the newest event of an outage past its threshold. */
  ghost predicate AlertedOnce(s: State, r: State, k: nat) {
    || DownAlerts(r.log) == DownAlerts(s.log)
    || (AlertedNow(s, r) && r.status == Down && r.failures >= k)
  }

  lemma {:induction false} AlertedOnceStep(cfg: Config, s: State, p: State, x: Input, k: nat)
    requires AlertedOnce(s, p, k) && x.row.status == Down && !x.maintenance && x.alertAfter == k >= 1
    ensures AlertedOnce(s, Interpret(cfg, p, x), k)
  {
    if Recorded(p, x) { DownStep(cfg, p, x); }
  }

  /** From any state, an uninterrupted run of down checks under a fixed threshold raises at most one down alert. */
  lemma {:induction false} AtMostOneAlertPerRun(cfg: Config, s: State, inputs: seq<Input>, k: nat)
    requires k >= 1 && Downs(inputs, k)
    ensures DownAlerts(s.log) <= DownAlerts(Run(cfg, s, inputs).log) <= DownAlerts(s.log) + 1
    ensures AlertedOnce(s, Run(cfg, s, inputs), k)
  {
    if inputs != [] {
      var n := |inputs| - 1;
      AtMostOneAlertPerRun(cfg, s, inputs[..n], k);
      AlertedOnceStep(cfg, s, Run(cfg, s, inputs[..n]), inputs[n], k);
    }
  }

  /** The length of the shortest start of the outage whose alert is due. */
  ghost function FirstDue(cfg: Config, s: State, inputs: seq<Input>, k: nat): (n: nat)
    requires k >= 1 && AlertDue(cfg, s, inputs, k)
    ensures k <= n <= |inputs|
    ensures AlertDue(cfg, s, inputs[..n], k)
    ensures n == k || !AlertDue(cfg, s, inputs[..n - 1], k)
    decreases |inputs|
  {
    assert inputs[..|inputs|] == inputs;
    if |inputs| == k || !AlertDue(cfg, s, inputs[..|inputs| - 1], k) then |inputs|
    else
      var n := FirstDue(cfg, s, inputs[..|inputs| - 1], k);
      assert inputs[..|inputs| - 1][..n] == inputs[..n];
      assert n > k ==> inputs[..|inputs| - 1][..n - 1] == inputs[..n - 1];
      n
  }

  /**
   * The deadline. With checks at most `interval` apart, an outage that reaches the threshold and lasts
   * the settle time has raised its one alert: at the `k`-th check, or before `flapSettle + interval` have
   * passed since the check it began with.
   */
  lemma {:induction false} AlertDeadline(cfg: Config, s: State, inputs: seq<Input>, k: nat, interval: nat)
    returns (n: nat)
    requires k >= 1 && cfg.flapSettle >= 1 && DownRun(s, inputs, k)
    requires |inputs| >= k && Lasted(inputs) >= cfg.flapSettle
    requires forall i :: 0 < i < |inputs| ==> inputs[i].row.checkedAt - inputs[i - 1].row.checkedAt <= interval
    ensures k <= n <= |inputs|
    ensures n == k || inputs[n - 1].row.checkedAt < inputs[0].row.checkedAt + cfg.flapSettle + interval
    ensures DownAlerts(Run(cfg, s, inputs[..n - 1]).log) == DownAlerts(s.log)
    ensures DownAlerts(Run(cfg, s, inputs[..n]).log) == DownAlerts(s.log) + 1
    ensures DownAlerts(Run(cfg, s, inputs).log) == DownAlerts(s.log) + 1
  {
    n := FirstDue(cfg, s, inputs, k);
    OneAlertSoFar(cfg, s, inputs, k, n - 1);
    OneAlertSoFar(cfg, s, inputs, k, n);
    OneAlertPerOutage(cfg, s, inputs, k);
    if n > k { NotYetDue(cfg, s, inputs, k, n, interval); }
  }

  lemma {:induction false} NotYetDue(cfg: Config, s: State, inputs: seq<Input>, k: nat, n: nat, interval: nat)
    requires 1 <= k < n <= |inputs| && !AlertDue(cfg, s, inputs[..n - 1], k)
    requires forall i :: 0 < i < |inputs| ==> inputs[i].row.checkedAt - inputs[i - 1].row.checkedAt <= interval
    ensures inputs[n - 1].row.checkedAt < inputs[0].row.checkedAt + cfg.flapSettle + interval
  {
    assert Lasted(inputs[..n - 1]) < cfg.flapSettle;
    assert inputs[n - 1].row.checkedAt - inputs[n - 2].row.checkedAt <= interval;
  }

  // ---------------------------------------------------------------------------------------------
  // Reminders
  // ---------------------------------------------------------------------------------------------

  /** While a monitor keeps flapping, the messages about it are a window or more apart. */
  ghost predicate RemindersApart(cfg: Config, log: seq<Event>) {
    forall i :: 0 < i < |log| && log[i].kind == MonitorFlapping && log[i - 1].kind == MonitorFlapping
      ==> log[i].createdAt - log[i - 1].createdAt >= cfg.flapWindow
  }

  lemma {:induction false} HoldStep(cfg: Config, s: State, x: Input)
    requires RemindersApart(cfg, s.log) && x.row.checkedAt <= x.clock
    ensures var r := Interpret(cfg, s, x);
            && RemindersApart(cfg, r.log)
            && (ActiveFlap(s.log).Some? ==>
                  || r.log == s.log
                  || (|r.log| == |s.log| + 1 && r.log[..|s.log|] == s.log
                      && (ActiveFlap(r.log).None? ==> Settled(cfg, s, x))))
  {}

  /**
   * While a hold lasts, the log grows by reminders only, each a window or more after the message
   * before it. The hold ends with another status event, never silently.
   */
  lemma {:induction false} HoldsOnlyRemind(cfg: Config, inputs: seq<Input>)
    requires Plausible(inputs)
    ensures RemindersApart(cfg, Run(cfg, INITIAL, inputs).log)
    ensures inputs != [] ==>
              var s := Run(cfg, INITIAL, inputs[..|inputs| - 1]);
              var r := Run(cfg, INITIAL, inputs);
              ActiveFlap(s.log).Some? ==>
                || r.log == s.log
                || (|r.log| == |s.log| + 1 && r.log[..|s.log|] == s.log
                    && (ActiveFlap(r.log).None? ==> Settled(cfg, s, inputs[|inputs| - 1])))
  {
    if inputs != [] {
      var before := inputs[..|inputs| - 1];
      HoldsOnlyRemind(cfg, before);
      HoldStep(cfg, Run(cfg, INITIAL, before), inputs[|inputs| - 1]);
    }
  }

  /** A run of interpreted checks that were not down. */
  ghost predicate QuietRun(s: State, inputs: seq<Input>) {
    && (forall i :: 0 <= i < |inputs| ==> inputs[i].row.status in {Up, Degraded} && !inputs[i].maintenance)
    && (forall i :: 0 <= i < |inputs| && s.lastCheckAt.Some? ==> s.lastCheckAt.value <= inputs[i].row.checkedAt)
    && (forall i, j :: 0 <= i < j < |inputs| ==> inputs[i].row.checkedAt <= inputs[j].row.checkedAt)
  }

  /** Whether the i-th check of a quiet run leaves the hold in place. */
  ghost predicate KeepsHold(cfg: Config, s: State, inputs: seq<Input>, i: nat)
    requires i < |inputs|
  {
    (i == 0 && s.status == Down) || WentDownRecently(cfg, inputs[i].stored, inputs[i].row.checkedAt)
  }

  lemma {:induction false} QuietPrefix(cfg: Config, s: State, inputs: seq<Input>, n: nat)
    requires QuietRun(s, inputs) && n <= |inputs|
    requires forall i :: 0 <= i < n ==> KeepsHold(cfg, s, inputs, i)
    ensures QuietRun(s, inputs[..n]) && forall i :: 0 <= i < n ==> KeepsHold(cfg, s, inputs[..n], i)
  {
    forall i | 0 <= i < n ensures KeepsHold(cfg, s, inputs[..n], i) {
      assert KeepsHold(cfg, s, inputs, i);
    }
  }

  lemma {:induction false} HoldKeptStep(cfg: Config, p: State, x: Input)
    requires ActiveFlap(p.log).Some? && x.row.status in {Up, Degraded} && !x.maintenance
    requires p.lastCheckAt.Some? ==> p.lastCheckAt.value <= x.row.checkedAt
    requires p.status == Down || WentDownRecently(cfg, x.stored, x.row.checkedAt)
    ensures var r := Interpret(cfg, p, x);
            ActiveFlap(r.log).Some? && r.status != Down && r.lastCheckAt == Some(x.row.checkedAt)
  {}

  lemma {:induction false} HoldKept(cfg: Config, s: State, inputs: seq<Input>)
    requires ActiveFlap(s.log).Some? && QuietRun(s, inputs)
    requires forall i :: 0 <= i < |inputs| ==> KeepsHold(cfg, s, inputs, i)
    ensures var r := Run(cfg, s, inputs);
            && ActiveFlap(r.log).Some?
            && (inputs != [] ==> r.status != Down && r.lastCheckAt == Some(inputs[|inputs| - 1].row.checkedAt))
            && (inputs == [] ==> r == s)
  {
    if inputs != [] {
      var n := |inputs| - 1;
      QuietPrefix(cfg, s, inputs, n);
      HoldKept(cfg, s, inputs[..n]);
      assert KeepsHold(cfg, s, inputs, n);
      HoldKeptStep(cfg, Run(cfg, s, inputs[..n]), inputs[n]);
    }
  }

  lemma {:induction false} QuietCheckAlerts(cfg: Config, p: State, x: Input)
    requires ActiveFlap(p.log).Some? && Recorded(p, x) && x.row.status in {Up, Degraded}
    requires p.status != Down && !WentDownRecently(cfg, x.stored, x.row.checkedAt)
    ensures Interpret(cfg, p, x).log
            == p.log + [Event(if x.row.status == Up then MonitorUp else MonitorDegraded, x.clock, x.row.checkedAt)]
  {
    assert Settled(cfg, p, x);
  }

  /** The first check of a quiet run that does not keep the hold. */
  lemma {:induction false} FirstToRelease(cfg: Config, s: State, inputs: seq<Input>) returns (n: nat)
    requires inputs != [] && !KeepsHold(cfg, s, inputs, |inputs| - 1)
    ensures n < |inputs| && !KeepsHold(cfg, s, inputs, n)
    ensures forall i :: 0 <= i < n ==> KeepsHold(cfg, s, inputs, i)
  {
    n := 0;
    while KeepsHold(cfg, s, inputs, n)
      invariant n < |inputs|
      invariant forall i :: 0 <= i < n ==> KeepsHold(cfg, s, inputs, i)
      decreases |inputs| - n
    {
      n := n + 1;
    }
  }

  /** No check stored by then was down after `last`. */
  ghost predicate NoDownAfter(inputs: seq<Input>, last: int) {
    forall i, k :: 0 <= i < |inputs| && 0 <= k < |inputs[i].stored| && inputs[i].stored[k].status == Down ==>
      inputs[i].stored[k].checkedAt <= last
  }

  /** A check that keeps the hold for a stored down check comes within the settle time of the last one. */
  lemma {:induction false} KeptBySettleTime(cfg: Config, s: State, inputs: seq<Input>, last: int, i: nat)
    requires i < |inputs| && NoDownAfter(inputs, last) && KeepsHold(cfg, s, inputs, i) && !(i == 0 && s.status == Down)
    ensures inputs[i].row.checkedAt <= last + cfg.flapSettle
  {
    var k :| 0 <= k < |inputs[i].stored| && inputs[i].stored[k].status == Down
             && inputs[i].row.checkedAt - cfg.flapSettle <= inputs[i].stored[k].checkedAt <= inputs[i].row.checkedAt;
    assert inputs[i].stored[k].checkedAt <= last;
  }

  /**
   * A hold ends by going quiet, on time. If no check is down after `last` and the checks go on past the
   * settle time, the hold ends at the first check that finds no down check in its settle time: that one alerts
   * its own status, and every check before it kept the hold. With checks at most `interval` apart it comes
   * by the last down check plus the settle time plus one interval, or is the run's first, or its second
   * where the first one follows a recorded down.
   */
  lemma {:induction false} HoldEndsQuietly(cfg: Config, s: State, inputs: seq<Input>, last: int, interval: nat)
    returns (n: nat)
    requires ActiveFlap(s.log).Some? && QuietRun(s, inputs) && NoDownAfter(inputs, last)
    requires |inputs| >= 2 || (|inputs| == 1 && s.status != Down)
    requires inputs[|inputs| - 1].row.checkedAt > last + cfg.flapSettle
    requires forall i :: 0 < i < |inputs| ==> inputs[i].row.checkedAt - inputs[i - 1].row.checkedAt <= interval
    ensures n < |inputs| && !KeepsHold(cfg, s, inputs, n)
    ensures forall i :: 0 <= i < n ==> KeepsHold(cfg, s, inputs, i)
    ensures n > (if s.status == Down then 1 else 0) ==>
              inputs[n].row.checkedAt <= last + cfg.flapSettle + interval
    ensures ActiveFlap(Run(cfg, s, inputs[..n]).log).Some?
    ensures var r := Run(cfg, s, inputs[..n + 1]);
            r.log == Run(cfg, s, inputs[..n]).log
                     + [Event(if inputs[n].row.status == Up then MonitorUp else MonitorDegraded,
                              inputs[n].clock, inputs[n].row.checkedAt)]
  {
    if KeepsHold(cfg, s, inputs, |inputs| - 1) { KeptBySettleTime(cfg, s, inputs, last, |inputs| - 1); }
    n := FirstToRelease(cfg, s, inputs);
    if n > (if s.status == Down then 1 else 0) { KeptBySettleTime(cfg, s, inputs, last, n - 1); }
    QuietPrefix(cfg, s, inputs, n);
    HoldKept(cfg, s, inputs[..n]);
    assert inputs[..n + 1][..n] == inputs[..n];
    QuietCheckAlerts(cfg, Run(cfg, s, inputs[..n]), inputs[n]);
  }

  // ---------------------------------------------------------------------------------------------
  // The alert rate
  // ---------------------------------------------------------------------------------------------

  /** Down alerts whose check ran in the closed window from `a` to `b`. */
  function DownsIn(log: seq<Event>, a: int, b: int): nat {
    if log == [] then 0
    else
      var e := log[|log| - 1];
      DownsIn(log[..|log| - 1], a, b) + if e.kind == MonitorDown && a <= e.checkedAt <= b then 1 else 0
  }

  /** The alert came while fewer alerts than the limit had gone out in the window before it. */
  ghost predicate Limited(cfg: Config, log: seq<Event>, i: nat)
    requires i < |log|
  {
    AlertsSince(log[..i], log[i].checkedAt - cfg.flapWindow) + 1 < cfg.flapThreshold
  }

  /** The alert came a settle time or more after every down alert before it. */
  ghost predicate Spaced(cfg: Config, log: seq<Event>, i: nat)
    requires i < |log|
  {
    forall j :: 0 <= j < i && log[j].kind == MonitorDown ==>
      log[j].checkedAt + cfg.flapSettle <= log[i].checkedAt
  }

  ghost predicate ThrottledAt(cfg: Config, log: seq<Event>, i: nat)
    requires i < |log|
  {
    log[i].kind == MonitorDown ==> Limited(cfg, log, i) || Spaced(cfg, log, i)
  }

  ghost predicate Throttled(cfg: Config, log: seq<Event>) {
    forall i :: 0 <= i < |log| ==> ThrottledAt(cfg, log, i)
  }

  /** Later events say nothing about an earlier alert. */
  lemma {:induction false} ThrottledAtPrefix(cfg: Config, log: seq<Event>, n: nat, i: nat)
    requires i < n <= |log|
    ensures ThrottledAt(cfg, log, i) <==> ThrottledAt(cfg, log[..n], i)
  {
    assert log[..n][..i] == log[..i];
    assert Spaced(cfg, log[..n], i) <==> Spaced(cfg, log, i);
  }

  /** The current outage has had its alert, or every alert so far belongs to an earlier one. */
  ghost predicate OutageAccounted(s: State, k: nat) {
    s.status == Down ==>
      || (s.failures >= k && s.log != [] && s.log[|s.log| - 1].kind == MonitorDown)
      || (forall i :: 0 <= i < |s.log| && s.log[i].kind == MonitorDown
                      ==> s.lastChangeAt.Some? && s.log[i].checkedAt <= s.lastChangeAt.value)
  }

  lemma {:induction false} ThrottledAppend(cfg: Config, log: seq<Event>, e: Event)
    requires Throttled(cfg, log)
    requires e.kind == MonitorDown ==>
               || AlertsSince(log, e.checkedAt - cfg.flapWindow) + 1 < cfg.flapThreshold
               || (forall j :: 0 <= j < |log| && log[j].kind == MonitorDown ==>
                     log[j].checkedAt + cfg.flapSettle <= e.checkedAt)
    ensures Throttled(cfg, log + [e])
  {
    var grown := log + [e];
    assert grown[..|log|] == log;
    forall i | 0 <= i < |log| ensures ThrottledAt(cfg, grown, i) {
      ThrottledAtPrefix(cfg, grown, |log|, i);
    }
    assert ThrottledAt(cfg, grown, |log|);
  }

  lemma {:induction false} ThrottledStep(cfg: Config, s: State, now: Option<int>, x: Input, k: nat)
    requires Consistent(s, now) && Throttled(cfg, s.log) && OutageAccounted(s, k)
    requires cfg.flapThreshold >= 2 && cfg.flapSettle >= 1 && k >= 1
    requires x.alertAfter == k && x.row.status != Unknown
    ensures Throttled(cfg, Interpret(cfg, s, x).log)
    ensures OutageAccounted(Interpret(cfg, s, x), k)
  {
    var kind := Enqueued(Judge(cfg, s, x));
    if Recorded(s, x) && kind.Some? {
      var e := Event(kind.value, x.clock, x.row.checkedAt);
      ThrottledAppend(cfg, s.log, e);
    }
  }

  lemma {:induction false} RunsAreThrottled(cfg: Config, inputs: seq<Input>, k: nat)
    requires Plausible(inputs) && FixedThreshold(inputs, k)
    requires cfg.flapThreshold >= 2 && cfg.flapSettle >= 1 && k >= 1
    ensures Throttled(cfg, Run(cfg, INITIAL, inputs).log)
    ensures OutageAccounted(Run(cfg, INITIAL, inputs), k)
  {
    if inputs != [] {
      var before := inputs[..|inputs| - 1];
      RunsAreThrottled(cfg, before, k);
      RunsAreConsistent(cfg, before);
      ThrottledStep(cfg, Run(cfg, INITIAL, before), Newest(before), inputs[|inputs| - 1], k);
    }
  }

  lemma {:induction false} DownsAreCounted(log: seq<Event>, a: int, b: int, from: int)
    requires from <= a && forall i :: 0 <= i < |log| ==> log[i].checkedAt <= log[i].createdAt
    ensures DownsIn(log, a, b) <= AlertsSince(log, from)
  {
    if log != [] {
      DownsAreCounted(log[..|log| - 1], a, b, from);
    }
  }

  lemma ProductGrows(x: int, y: int, step: nat)
    requires x <= y
    ensures x * step <= y * step
  {}

  lemma QuotientBounds(n: int, step: nat, w: nat)
    requires step >= 1 && n * step <= w
    ensures n <= w / step
  {
    if n > w / step {
      ProductGrows(w / step + 1, n, step);
    }
  }

  /** The bound grows with a counted alert's time, so spaced alerts add only one each settle time. */
  ghost predicate WindowBound(cfg: Config, log: seq<Event>, a: int, j: int) {
    && 0 <= j < |log| && log[j].kind == MonitorDown
    && a <= log[j].checkedAt <= a + cfg.flapWindow
    && (DownsIn(log, a, a + cfg.flapWindow) - cfg.flapThreshold) * cfg.flapSettle <= log[j].checkedAt - a
  }

  lemma {:induction false} ThrottledPrefix(cfg: Config, log: seq<Event>, n: nat)
    requires Throttled(cfg, log) && n <= |log|
    ensures Throttled(cfg, log[..n])
  {
    forall i | 0 <= i < n ensures ThrottledAt(cfg, log[..n], i) {
      ThrottledAtPrefix(cfg, log, n, i);
    }
  }

  lemma {:induction false} WindowIsBounded(cfg: Config, log: seq<Event>, a: int) returns (j: int)
    requires cfg.flapThreshold >= 2 && cfg.flapSettle >= 1
    requires Timed(log) && Throttled(cfg, log)
    ensures DownsIn(log, a, a + cfg.flapWindow) == 0 || WindowBound(cfg, log, a, j)
  {
    j := 0;
    if log != [] {
      var n := |log| - 1;
      var init, e, b := log[..n], log[n], a + cfg.flapWindow;
      ThrottledPrefix(cfg, log, n);
      j := WindowIsBounded(cfg, init, a);
      if e.kind == MonitorDown && a <= e.checkedAt <= b {
        var before := DownsIn(init, a, b) - cfg.flapThreshold;
        assert ThrottledAt(cfg, log, n);
        if Limited(cfg, log, n) {
          DownsAreCounted(init, a, b, e.checkedAt - cfg.flapWindow);
          ProductGrows(before + 1, 0, cfg.flapSettle);
        } else if DownsIn(init, a, b) > 0 {
          assert Spaced(cfg, log, n);
          assert (before + 1) * cfg.flapSettle == before * cfg.flapSettle + cfg.flapSettle;
        } else {
          ProductGrows(before + 1, 0, cfg.flapSettle);
        }
        j := n;
      }
    }
  }

  /**
   * However a monitor bounces, with one failure threshold the down alerts of any closed flapping
   * window number at most the limit plus one for every settle time the window holds.
   */
  lemma {:induction false} AlertRateBound(cfg: Config, inputs: seq<Input>, k: nat, a: int)
    requires Plausible(inputs) && FixedThreshold(inputs, k) && k >= 1
    requires cfg.flapThreshold >= 2 && cfg.flapSettle >= 1
    ensures DownsIn(Run(cfg, INITIAL, inputs).log, a, a + cfg.flapWindow)
            <= cfg.flapThreshold + cfg.flapWindow / cfg.flapSettle
  {
    var log := Run(cfg, INITIAL, inputs).log;
    RunsAreConsistent(cfg, inputs);
    RunsAreThrottled(cfg, inputs, k);
    var j := WindowIsBounded(cfg, log, a);
    if DownsIn(log, a, a + cfg.flapWindow) > 0 {
      var n := DownsIn(log, a, a + cfg.flapWindow) - cfg.flapThreshold;
      assert n * cfg.flapSettle <= cfg.flapWindow;
      QuotientBounds(n, cfg.flapSettle, cfg.flapWindow);
    } else {
      QuotientBounds(0, cfg.flapSettle, cfg.flapWindow);
    }
  }
}
