/** What a monitor's event log says about its alerts (src/lib/server/flap.ts). */
module Flap {
  import opened Prelude

  datatype Kind = MonitorDown | MonitorUp | MonitorDegraded | MonitorFlapping

  /**
   * A status event of one monitor. `checkedAt` is the time of the check that raised it, which the
   * stored payload names by the check's id. Logs list events oldest first.
   */
  datatype Event = Event(kind: Kind, createdAt: int, checkedAt: int)

  /** The order `createdAt` gives, and the clock it was read from, agree with the checks. */
  ghost predicate Timed(log: seq<Event>) {
    && (forall i :: 0 <= i < |log| ==> log[i].checkedAt <= log[i].createdAt)
    && (forall i, j :: 0 <= i < j < |log| ==> log[i].createdAt < log[j].createdAt)
    && (forall i, j :: 0 <= i < j < |log| ==> log[i].checkedAt <= log[j].checkedAt)
  }

  /** The last event that opens or closes an outage, which a degraded alert does neither of. */
  function NewestOutageEvent(log: seq<Event>): Option<Event> {
    if log == [] then None
    else
      var latest := log[|log| - 1];
      if latest.kind != MonitorDegraded then Some(latest) else NewestOutageEvent(log[..|log| - 1])
  }

  /** The start of the current hold: the time of the last event, if that is a flapping message. */
  function ActiveFlap(log: seq<Event>): Option<int> {
    if log != [] && log[|log| - 1].kind == MonitorFlapping then Some(log[|log| - 1].createdAt) else None
  }

  /** An outage that customers know of is open: the last event of `NewestOutageEvent` opened one. */
  predicate OutageAlerted(log: seq<Event>) {
    var latest := NewestOutageEvent(log);
    latest.Some? && latest.value.kind != MonitorUp
  }

  lemma {:induction false} AppendedEvent(log: seq<Event>, e: Event)
    ensures NewestOutageEvent(log + [e]) == if e.kind == MonitorDegraded then NewestOutageEvent(log) else Some(e)
    ensures OutageAlerted(log + [e]) == match e.kind
                                        case MonitorDegraded => OutageAlerted(log)
                                        case MonitorUp => false
                                        case _ => true
  {
    assert (log + [e])[..|log|] == log;
  }

  /**
   * The last such event opened an outage exactly when some down or flapping message has no recovery alert
   * anywhere after it.
   */
  lemma {:induction false} OutageMeansUnanswered(log: seq<Event>)
    ensures OutageAlerted(log) <==> exists i :: Unanswered(log, i)
  {
    if log != [] {
      var n := |log| - 1;
      OutageMeansUnanswered(log[..n]);
      if log[n].kind in {MonitorDown, MonitorFlapping} {
        assert Unanswered(log, n);
      } else if log[n].kind == MonitorDegraded {
        if i :| Unanswered(log[..n], i) { assert Unanswered(log, i); }
        if i :| Unanswered(log, i) { assert Unanswered(log[..n], i); }
      }
    }
  }

  ghost predicate Unanswered(log: seq<Event>, i: int) {
    && 0 <= i < |log| && log[i].kind in {MonitorDown, MonitorFlapping}
    && forall j :: i < j < |log| ==> log[j].kind != MonitorUp
  }

  /** While a hold lasts, `OutageAlerted` is true of the log. */
  lemma {:induction false} FlapIsOutage(log: seq<Event>)
    requires ActiveFlap(log).Some?
    ensures OutageAlerted(log)
  {}
}
