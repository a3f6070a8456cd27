/**
 * The notification outbox: workers that claim, dispatch and retry events while others may take a
 * stale claim over (src/worker/notifier/processor.ts).
 */
module Outbox {
  import opened Prelude
  import opened Delivery

  const STUCK_ROW_THRESHOLD_MS := 300_000
  const ORGANIZATION_RETRIES := 5
  const MINUTE := 60_000

  /** How long a retry waits, by the number of retries before it. After six of them an event is final. */
  const ALERT_RETRY_DELAYS_MS: seq<int> := [MINUTE, 2 * MINUTE, 5 * MINUTE, 10 * MINUTE, 20 * MINUTE, 30 * MINUTE]

  datatype Status =
    | Pending | Processing
    | ConfirmationQueued | ConfirmationSending
    | RetryQueued | RetrySending
    | Done(final: Final)

  datatype Lane = Alerts | Confirmations | Retries

  function Queued(lane: Lane): Status {
    match lane
    case Alerts => Pending
    case Confirmations => ConfirmationQueued
    case Retries => RetryQueued
  }

  function Claimed(lane: Lane): Status {
    match lane
    case Alerts => Processing
    case Confirmations => ConfirmationSending
    case Retries => RetrySending
  }

  datatype Retry = Retry(progress: Progress, attempt: nat, nextAt: int)

  /**
   * One event. `rounds`, `attempts` and `exited` are its history, which the table does not keep: the rounds
   * whose results landed, the attempts that made them, and whether a dispatch without a round landed instead.
   */
  datatype Row = Row(
    organization: nat, status: Status, claimedAt: Option<int>, retry: Option<Retry>, errors: seq<Summary>,
    rounds: seq<Round>, attempts: seq<Attempt>, exited: bool)

  /** What a dispatch came to: an attempt at its deliveries, or an exit before any. */
  datatype Result = Dispatched(attempt: Attempt) | Exit(final: Final)

  /** A worker's hold on a row, with the row as the claim returned it. */
  datatype Claim = Claim(row: nat, at: int, seen: Row, finished: bool)

  /** `rows` lists the events in the order they were created. */
  datatype State = State(rows: seq<Row>, claims: seq<Claim>, clock: int)

  function RetriesInFlight(rows: seq<Row>, organization: nat): nat {
    if rows == [] then 0
    else
      var r := rows[|rows| - 1];
      RetriesInFlight(rows[..|rows| - 1], organization)
      + if r.status == RetrySending && r.organization == organization then 1 else 0
  }

  /** Whether a sweep of the lane that reads the clock as `at` may claim the row. */
  predicate Claimable(rows: seq<Row>, id: nat, lane: Lane, at: int)
    requires id < |rows|
  {
    var row := rows[id];
    || (&& row.status == Queued(lane)
        && (lane == Retries ==>
              && row.retry.Some? && row.retry.value.nextAt <= at
              && RetriesInFlight(rows, row.organization) < ORGANIZATION_RETRIES))
    || (&& row.status == Claimed(lane)
        && row.claimedAt.Some? && row.claimedAt.value < at - STUCK_ROW_THRESHOLD_MS)
  }

  function WithClaim(row: Row, lane: Lane, now: int): Row {
    row.(status := Claimed(lane), claimedAt := Some(now))
  }

  /** What the row carries over from the attempts before. */
  function Prior(row: Row): Option<Progress> {
    if row.retry.Some? then Some(row.retry.value.progress) else None
  }

  /** What the claim's worker writes over the row it saw. */
  function Written(seen: Row, result: Result, now: int): Row {
    match result
    case Exit(final) => seen.(status := Done(final), retry := None, errors := [], exited := true)
    case Dispatched(attempt) =>
      var round := RoundOf(attempt, Prior(seen));
      var retries := if seen.retry.Some? then seen.retry.value.attempt else 0;
      var outcome := Settle(Prior(seen), round);
      var landed := seen.(errors := outcome.errors, rounds := seen.rounds + [round],
                          attempts := seen.attempts + [attempt]);
      if outcome.retry.Some? && retries < |ALERT_RETRY_DELAYS_MS| then
        landed.(status := RetryQueued,
                retry := Some(Retry(outcome.retry.value, retries + 1, now + ALERT_RETRY_DELAYS_MS[retries])))
      else landed.(status := Done(outcome.final), retry := None)
  }

  /** The row was not claimed again after this claim. */
  predicate Holds(rows: seq<Row>, c: Claim) {
    c.row < |rows| && rows[c.row].claimedAt == Some(c.at)
  }

  function AfterLanding(rows: seq<Row>, c: Claim, result: Result, now: int): seq<Row> {
    if Holds(rows, c) then rows[c.row := Written(c.seen, result, now)] else rows
  }

  // ---------------------------------------------------------------------------------------------
  // Interleavings
  // ---------------------------------------------------------------------------------------------

  /**
   * One atomic step of any worker. A sweep reads the clock for its cutoff at `read` and stamps the
   * claim at `now`. A worker that hangs or dies never takes its `Land` step.
   */
  datatype Step =
    | Enqueue(organization: nat, confirmation: bool)
    | Listen(id: nat, now: int)
    | Sweep(lane: Lane, id: nat, read: int, now: int)
    | Land(claim: nat, result: Result, now: int)

  /** Steps agree on the time, and a claim's worker reports once. */
  predicate Enabled(s: State, step: Step) {
    match step
    case Enqueue(_, _) => true
    case Listen(id, now) => s.clock <= now && id < |s.rows| && s.rows[id].status in {Pending, ConfirmationQueued}
    case Sweep(lane, id, read, now) =>
      s.clock <= now && read <= now && id < |s.rows| && Claimable(s.rows, id, lane, read)
    case Land(claim, result, now) =>
      && s.clock <= now && claim < |s.claims| && !s.claims[claim].finished
      && (result.Dispatched? ==> Distinct(result.attempt.channels))
  }

  function Claiming(s: State, id: nat, lane: Lane, now: int): State
    requires id < |s.rows|
  {
    var row := WithClaim(s.rows[id], lane, now);
    State(s.rows[id := row], s.claims + [Claim(id, now, row, false)], now)
  }

  /** A step that is not enabled matches no row and changes nothing. */
  function Next(s: State, step: Step): State {
    if !Enabled(s, step) then s
    else match step
    case Enqueue(organization, confirmation) =>
      s.(rows := s.rows + [Row(organization, if confirmation then ConfirmationQueued else Pending,
                               None, None, [], [], [], false)])
    case Listen(id, now) =>
      Claiming(s, id, if s.rows[id].status == ConfirmationQueued then Confirmations else Alerts, now)
    case Sweep(lane, id, _, now) => Claiming(s, id, lane, now)
    case Land(claim, result, now) =>
      var c := s.claims[claim];
      State(AfterLanding(s.rows, c, result, now), s.claims[claim := c.(finished := true)], now)
  }

  const EMPTY := State([], [], 0)

  function Run(steps: seq<Step>): State {
    if steps == [] then EMPTY else Next(Run(steps[..|steps| - 1]), steps[|steps| - 1])
  }

  // ---------------------------------------------------------------------------------------------
  // The invariant
  // ---------------------------------------------------------------------------------------------

  predicate InFlight(status: Status) {
    status in {Processing, ConfirmationSending, RetrySending}
  }

  /** What a row says about its own past. */
  ghost predicate RowOk(row: Row) {
    && (row.status in {Pending, ConfirmationQueued} <==> row.claimedAt.None?)
    && (row.status in {RetryQueued, RetrySending} <==> row.retry.Some?)
    && (row.status == RetryQueued ==> row.claimedAt.value + MINUTE <= row.retry.value.nextAt)
    && Continues(row.rounds)
    && (row.retry.Some? ==>
          && row.retry.value.attempt == |row.rounds| <= |ALERT_RETRY_DELAYS_MS|
          && row.rounds != []
          && Carried(row.rounds) == Some(row.retry.value.progress))
    && (row.retry.None? && !row.status.Done? ==> row.rounds == [])
    && (row.exited ==> row.status.Done?)
    && (row.status.Done? ==>
          && |row.rounds| <= |ALERT_RETRY_DELAYS_MS| + 1
          && (!row.exited ==>
                && row.rounds != []
                && row.status.final == Whole(row.rounds).final
                && row.errors == Whole(row.rounds).errors))
  }

  /** A claim is on a row, no older than the row's newest claim unless another followed it. */
  ghost predicate ClaimOk(s: State, c: Claim) {
    && c.row < |s.rows| && c.at <= s.clock
    && s.rows[c.row].claimedAt.Some? && c.at <= s.rows[c.row].claimedAt.value
    && (Holds(s.rows, c) && !c.finished ==> c.seen == s.rows[c.row] && InFlight(c.seen.status))
  }

  /** Claims of one row strictly rise, in the order they were made. */
  ghost predicate ClaimsRise(claims: seq<Claim>) {
    forall i, j :: 0 <= i < j < |claims| && claims[i].row == claims[j].row ==> claims[i].at < claims[j].at
  }

  ghost predicate Inv(s: State) {
    && (forall id :: 0 <= id < |s.rows| ==> RowOk(s.rows[id]))
    && (forall id :: 0 <= id < |s.rows| && s.rows[id].claimedAt.Some? ==> s.rows[id].claimedAt.value <= s.clock)
    && (forall k :: 0 <= k < |s.claims| ==> ClaimOk(s, s.claims[k]))
    && ClaimsRise(s.claims)
  }

  /** A claim is later than the row's claim before it: new rows had none, others waited. */
  lemma {:induction false} ClaimingKeepsInv(s: State, id: nat, lane: Lane, now: int)
    requires Inv(s) && s.clock <= now && id < |s.rows|
    requires s.rows[id].status in {Queued(lane), Claimed(lane)}
    requires s.rows[id].claimedAt.Some? ==> s.rows[id].claimedAt.value < now
    ensures Inv(Claiming(s, id, lane, now))
  {
    var t := Claiming(s, id, lane, now);
    assert RowOk(s.rows[id]);
    assert RowOk(t.rows[id]);
    forall k | 0 <= k < |t.claims| ensures ClaimOk(t, t.claims[k]) {
      if k < |s.claims| {
        assert ClaimOk(s, s.claims[k]);
      }
    }
    forall i, j | 0 <= i < j < |t.claims| && t.claims[i].row == t.claims[j].row
      ensures t.claims[i].at < t.claims[j].at
    {
      assert ClaimOk(s, s.claims[i]);
    }
  }

  lemma {:induction false} SweptClaimIsLater(s: State, lane: Lane, id: nat, read: int, now: int)
    requires Inv(s) && Enabled(s, Sweep(lane, id, read, now))
    ensures s.rows[id].claimedAt.Some? ==> s.rows[id].claimedAt.value < now
  {
    assert RowOk(s.rows[id]);
  }

  lemma {:induction false} RoundsGoOn(seen: Row, round: Round)
    requires RowOk(seen) && InFlight(seen.status)
    ensures Continues(seen.rounds + [round])
    ensures Carried(seen.rounds) == Prior(seen)
  {
    var rounds := seen.rounds;
    assert rounds != [] ==> rounds[|rounds| - 1].transient != [];
  }

  lemma {:induction false} DelaysAreLong(i: nat)
    requires i < |ALERT_RETRY_DELAYS_MS|
    ensures ALERT_RETRY_DELAYS_MS[i] >= MINUTE
  {}

  lemma {:induction false} LandedRoundIsOk(seen: Row, attempt: Attempt, now: int)
    requires RowOk(seen) && InFlight(seen.status) && seen.claimedAt.value <= now
    ensures var row := Written(seen, Dispatched(attempt), now);
            RowOk(row) && row.claimedAt == seen.claimedAt && !InFlight(row.status)
  {
    var round := RoundOf(attempt, Prior(seen));
    var rounds := seen.rounds + [round];
    RoundsGoOn(seen, round);
    FoldIsWhole(seen.rounds, round);
    assert Carried(rounds) == Whole(rounds).retry;
    var retries := if seen.retry.Some? then seen.retry.value.attempt else 0;
    assert retries == |seen.rounds|;
    if retries < |ALERT_RETRY_DELAYS_MS| { DelaysAreLong(retries); }
  }

  /** The written row's history is the seen one's and the round that landed. */
  lemma {:induction false} WrittenIsOk(seen: Row, result: Result, now: int)
    requires RowOk(seen) && InFlight(seen.status) && seen.claimedAt.value <= now
    ensures RowOk(Written(seen, result, now))
    ensures Written(seen, result, now).claimedAt == seen.claimedAt
    ensures !InFlight(Written(seen, result, now).status)
  {
    if result.Dispatched? { LandedRoundIsOk(seen, result.attempt, now); }
  }

  /** A claim whose row another claim's result left alone is as it was. */
  lemma {:induction false} UntouchedClaimOk(s: State, t: State, c: Claim)
    requires ClaimOk(s, c) && s.clock <= t.clock && |t.rows| == |s.rows| && t.rows[c.row] == s.rows[c.row]
    ensures ClaimOk(t, c)
  {}

  /** A claim that does not hold its row needs only the row's claim time. */
  lemma {:induction false} LapsedClaimOk(s: State, t: State, c: Claim)
    requires c.row < |s.rows| && c.at <= s.clock <= t.clock && |t.rows| == |s.rows|
    requires s.rows[c.row].claimedAt.Some? && c.at <= s.rows[c.row].claimedAt.value
    requires t.rows[c.row].claimedAt == s.rows[c.row].claimedAt && (c.finished || !Holds(t.rows, c))
    ensures ClaimOk(t, c)
  {}

  lemma {:induction false} LandedClaimOk(s: State, claim: nat, result: Result, now: int, k: nat)
    requires Inv(s) && Enabled(s, Land(claim, result, now)) && k < |s.claims|
    ensures var t := Next(s, Land(claim, result, now)); ClaimOk(t, t.claims[k])
  {
    var c, t := s.claims[claim], Next(s, Land(claim, result, now));
    assert ClaimOk(s, c) && ClaimOk(s, s.claims[k]);
    if Holds(s.rows, c) && s.claims[k].row == c.row {
      assert RowOk(s.rows[c.row]);
      WrittenIsOk(c.seen, result, now);
      if k != claim { assert s.claims[k].at != c.at; }
      LapsedClaimOk(s, t, t.claims[k]);
    } else {
      UntouchedClaimOk(s, t, s.claims[k]);
      if k == claim { LapsedClaimOk(s, t, t.claims[k]); }
    }
  }

  lemma {:induction false} LandedRowOk(s: State, claim: nat, result: Result, now: int, id: nat)
    requires Inv(s) && Enabled(s, Land(claim, result, now)) && id < |s.rows|
    ensures var t := Next(s, Land(claim, result, now));
            && |t.rows| == |s.rows|
            && RowOk(t.rows[id]) && t.rows[id].claimedAt == s.rows[id].claimedAt
  {
    var c := s.claims[claim];
    assert ClaimOk(s, c);
    assert RowOk(s.rows[id]);
    if Holds(s.rows, c) && c.row == id {
      WrittenIsOk(c.seen, result, now);
    }
  }

  lemma {:induction false} LandingKeepsInv(s: State, claim: nat, result: Result, now: int)
    requires Inv(s) && Enabled(s, Land(claim, result, now))
    ensures Inv(Next(s, Land(claim, result, now)))
  {
    var t := Next(s, Land(claim, result, now));
    forall k | 0 <= k < |t.claims| ensures ClaimOk(t, t.claims[k]) {
      LandedClaimOk(s, claim, result, now, k);
    }
    forall id | 0 <= id < |t.rows|
      ensures RowOk(t.rows[id]) && t.rows[id].claimedAt == s.rows[id].claimedAt
    {
      LandedRowOk(s, claim, result, now, id);
    }
  }

  lemma {:induction false} StepKeepsInv(s: State, step: Step)
    requires Inv(s)
    ensures Inv(Next(s, step))
  {
    if Enabled(s, step) {
      match step {
        case Enqueue(_, _) =>
          var t := Next(s, step);
          forall k | 0 <= k < |t.claims| ensures ClaimOk(t, t.claims[k]) {
            assert ClaimOk(s, s.claims[k]);
          }
        case Listen(id, now) =>
          assert RowOk(s.rows[id]);
          ClaimingKeepsInv(s, id, if s.rows[id].status == ConfirmationQueued then Confirmations else Alerts, now);
        case Sweep(lane, id, read, now) =>
          SweptClaimIsLater(s, lane, id, read, now);
          ClaimingKeepsInv(s, id, lane, now);
        case Land(claim, result, now) => LandingKeepsInv(s, claim, result, now);
      }
    }
  }

  lemma {:induction false} RunsAreSound(steps: seq<Step>)
    ensures Inv(Run(steps))
  {
    if steps != [] {
      RunsAreSound(steps[..|steps| - 1]);
      StepKeepsInv(Run(steps[..|steps| - 1]), steps[|steps| - 1]);
    }
  }

  // ---------------------------------------------------------------------------------------------
  // What holds under any interleaving
  // ---------------------------------------------------------------------------------------------

  /** Every claim of a row is later than the one before it, so a claim's time names it. */
  lemma {:induction false} ClaimTimesRise(steps: seq<Step>, i: nat, j: nat)
    requires i < j < |Run(steps).claims| && Run(steps).claims[i].row == Run(steps).claims[j].row
    ensures Run(steps).claims[i].at < Run(steps).claims[j].at
  {
    RunsAreSound(steps);
  }

  /** A worker whose claim was taken over never writes, whatever its dispatch came to. */
  lemma {:induction false} OvertakenWorkerNeverWrites(steps: seq<Step>, claim: nat, later: nat, result: Result,
                                                      now: int)
    requires claim < later < |Run(steps).claims|
    requires Run(steps).claims[later].row == Run(steps).claims[claim].row
    ensures Next(Run(steps), Land(claim, result, now)).rows == Run(steps).rows
  {
    RunsAreSound(steps);
    assert ClaimOk(Run(steps), Run(steps).claims[later]);
  }

  /**
   * A result lands only on a row that is still in flight under that very claim, and takes it out of
   * flight, so no claim lands two results. What it continues is what the row says.
   */
  lemma {:induction false} LandingEndsTheClaim(steps: seq<Step>, claim: nat, result: Result, now: int)
    requires Enabled(Run(steps), Land(claim, result, now)) && Holds(Run(steps).rows, Run(steps).claims[claim])
    ensures var s := Run(steps);
            var id := s.claims[claim].row;
            var t := Next(s, Land(claim, result, now));
            && InFlight(s.rows[id].status)
            && t.rows[id] == Written(s.rows[id], result, now) && !InFlight(t.rows[id].status)
            && !Enabled(t, Land(claim, result, now))
  {
    RunsAreSound(steps);
    var s := Run(steps);
    assert ClaimOk(s, s.claims[claim]);
    assert RowOk(s.rows[s.claims[claim].row]);
    WrittenIsOk(s.claims[claim].seen, result, now);
  }

  /** A finished event never changes again. */
  lemma {:induction false} DoneIsForever(steps: seq<Step>, step: Step, id: nat)
    requires id < |Run(steps).rows| && Run(steps).rows[id].status.Done?
    ensures var t := Next(Run(steps), step); id < |t.rows| && t.rows[id] == Run(steps).rows[id]
  {
    RunsAreSound(steps);
    if Enabled(Run(steps), step) && step.Land? {
      assert ClaimOk(Run(steps), Run(steps).claims[step.claim]);
    }
  }

  /**
   * End to end, across workers, hangs and takeovers: an event that finished through its rounds reports
   * the outcome of its whole delivery history, of at most seven rounds. Until then each landed round
   * counts one attempt, so 6 minus the attempt is what the retries use up.
   */
  lemma {:induction false} FinalStatusTellsTheHistory(steps: seq<Step>, id: nat)
    requires id < |Run(steps).rows|
    ensures var row := Run(steps).rows[id];
            && |row.rounds| <= 7
            && (row.retry.Some? ==> row.retry.value.attempt == |row.rounds| <= 6)
            && (row.status.Done? && !row.exited ==>
                  row.rounds != [] && row.status.final == Whole(row.rounds).final
                  && row.errors == Whole(row.rounds).errors)
  {
    RunsAreSound(steps);
    assert RowOk(Run(steps).rows[id]);
  }

  lemma {:induction false} RetryPlaces(rows: seq<Row>, organization: nat, p: Row -> bool)
    requires forall r :: p(r) <==> r.status == RetrySending && r.organization == organization
    ensures RetriesInFlight(rows, organization) == |Places(rows, p)|
  {
    if rows != [] {
      RetryPlaces(rows[..|rows| - 1], organization, p);
      PlacesGrow(rows, p);
    }
  }

  lemma {:induction false} RetriesInFlightCounts(rows: seq<Row>, organization: nat)
    ensures RetriesInFlight(rows, organization)
            == |set k | 0 <= k < |rows| && rows[k].status == RetrySending && rows[k].organization == organization|
  {
    var p := (r: Row) => r.status == RetrySending && r.organization == organization;
    RetryPlaces(rows, organization, p);
    assert Places(rows, p)
        == set k | 0 <= k < |rows| && rows[k].status == RetrySending && rows[k].organization == organization;
  }

  /**
   * What is free for a sweep of the lane that reads the clock as `read`: what is queued for it, a retry only when
   * its time has come and its organization has fewer than five under way, and what the lane's worker has not
   * finished within five minutes.
   */
  ghost predicate Free(rows: seq<Row>, id: nat, lane: Lane, read: int)
    requires id < |rows|
  {
    var row := rows[id];
    match row.status
    case Pending => lane == Alerts
    case ConfirmationQueued => lane == Confirmations
    case RetryQueued =>
      && lane == Retries && row.retry.Some? && row.retry.value.nextAt <= read
      && |set k | 0 <= k < |rows| && rows[k].status == RetrySending && rows[k].organization == row.organization| < 5
    case Processing => lane == Alerts && row.claimedAt.Some? && row.claimedAt.value + 300_000 < read
    case ConfirmationSending => lane == Confirmations && row.claimedAt.Some? && row.claimedAt.value + 300_000 < read
    case RetrySending => lane == Retries && row.claimedAt.Some? && row.claimedAt.value + 300_000 < read
    case Done(_) => false
  }

  lemma {:induction false} ClaimableIsFree(rows: seq<Row>, id: nat, lane: Lane, read: int)
    requires id < |rows|
    ensures Claimable(rows, id, lane, read) <==> Free(rows, id, lane, read)
  {
    RetriesInFlightCounts(rows, rows[id].organization);
  }

  /**
   * A live claim is left alone: over every run, a sweep may take a row in flight over exactly when it is of the
   * sweep's lane and its claim is more than five minutes old by the sweep's clock.
   */
  lemma {:induction false} SweepsLeaveLiveClaims(steps: seq<Step>, s: State, lane: Lane, id: nat, read: int, now: int)
    requires s == Run(steps) && s.clock <= now && read <= now && id < |s.rows|
    requires s.rows[id].status in {Processing, ConfirmationSending, RetrySending}
    ensures s.rows[id].claimedAt.Some?
    ensures Enabled(s, Sweep(lane, id, read, now))
            <==> && s.rows[id].claimedAt.value + 300_000 < read
                 && (s.rows[id].status == Processing ==> lane == Alerts)
                 && (s.rows[id].status == ConfirmationSending ==> lane == Confirmations)
                 && (s.rows[id].status == RetrySending ==> lane == Retries)
  {
    RunsAreSound(steps);
    assert RowOk(s.rows[id]);
    ClaimableIsFree(s.rows, id, lane, read);
  }

  /**
   * A queued row goes to its own lane, and a retry only from its time on, while its organization has fewer than
   * five of them under way.
   */
  lemma {:induction false} SweepsTakeQueuedWhen(steps: seq<Step>, s: State, lane: Lane, id: nat, read: int, now: int)
    requires s == Run(steps) && s.clock <= now && read <= now && id < |s.rows|
    requires s.rows[id].status !in {Processing, ConfirmationSending, RetrySending}
    ensures s.rows[id].status == RetryQueued ==> s.rows[id].retry.Some?
    ensures Enabled(s, Sweep(lane, id, read, now))
            <==> || (s.rows[id].status == Pending && lane == Alerts)
                 || (s.rows[id].status == ConfirmationQueued && lane == Confirmations)
                 || (&& s.rows[id].status == RetryQueued && lane == Retries
                     && s.rows[id].retry.value.nextAt <= read
                     && |set k | 0 <= k < |s.rows| && s.rows[k].status == RetrySending
                                 && s.rows[k].organization == s.rows[id].organization| < 5)
  {
    RunsAreSound(steps);
    assert RowOk(s.rows[id]);
    ClaimableIsFree(s.rows, id, lane, read);
  }

  /** Who claims a row has it in flight under the time of the claim, and sees it so. No other row changes. */
  lemma {:induction false} ClaimsTakeTheRow(s: State, step: Step)
    requires (step.Sweep? && Enabled(s, step)) || (step.Listen? && s.clock <= step.now && step.id < |s.rows|)
    requires step.Listen? ==> s.rows[step.id].status in {Pending, ConfirmationQueued}
    ensures var t, id := Next(s, step), step.id;
            && t.clock == step.now && t.claims == s.claims + [Claim(id, step.now, t.rows[id], false)]
            && t.rows == s.rows[id := s.rows[id].(status := t.rows[id].status, claimedAt := Some(step.now))]
            && (t.rows[id].status == if s.rows[id].status in {Pending, Processing} then Processing
                                     else if s.rows[id].status in {ConfirmationQueued, ConfirmationSending} then
                                       ConfirmationSending
                                     else RetrySending)
  {}

  /** A new event is queued for its lane, with nothing claimed, owed or tried. */
  lemma {:induction false} EventsAreQueued(s: State, organization: nat, confirmation: bool)
    ensures var t := Next(s, Enqueue(organization, confirmation));
            t == s.(rows := s.rows + [Row(organization, if confirmation then ConfirmationQueued else Pending,
                                          None, None, [], [], [], false)])
  {}

  /** Some send of the attempt, to a channel the row owes or to a subscriber, failed in a way that may pass. */
  ghost predicate MayYetPass(row: Row, attempt: Attempt) {
    || (attempt.subscribers.Some? && attempt.subscribers.value.retrying != [])
    || exists c :: c in attempt.channels && (row.retry.None? || c.id in row.retry.value.progress.owed)
                   && !(attempt.overtaken && c.webhook) && !attempt.results(c).success && attempt.results(c).transient
  }

  lemma {:induction false} WrittenTells(before: Row, attempt: Attempt, now: int)
    requires RowOk(before) && InFlight(before.status)
    ensures var after := Written(before, Dispatched(attempt), now);
            && (after.status == RetryQueued <==> MayYetPass(before, attempt) && |before.rounds| < 6)
            && (after.status == RetryQueued ==>
                  && after.retry.Some? && after.retry.value.attempt == |before.rounds| + 1
                  && after.retry.value.nextAt == now + [1, 2, 5, 10, 20, 30][|before.rounds|] * 60_000)
            && (after.status != RetryQueued ==> after.status.Done? && after.retry.None?)
            && |after.rounds| == |before.rounds| + 1
  {
    var round := RoundOf(attempt, Prior(before));
    RoundTells(attempt, Prior(before));
    assert round.transient != [] <==> MayYetPass(before, attempt);
    assert Settle(Prior(before), round).retry.Some? <==> round.transient != [];
  }

  /**
   * An attempt that lands is followed by another exactly when fewer than six retries went before and some channel
   * or subscriber it tried failed in a way that may pass. That one is due after 1, 2, 5, 10, 20 and then 30 minutes.
   */
  lemma {:induction false} RetriesFollowExactlyWhen(steps: seq<Step>, s: State, claim: nat, attempt: Attempt, now: int)
    requires s == Run(steps) && claim < |s.claims| && !s.claims[claim].finished && s.clock <= now
    requires forall i, j :: 0 <= i < j < |attempt.channels| ==> attempt.channels[i].id != attempt.channels[j].id
    requires var c := s.claims[claim]; c.row < |s.rows| && s.rows[c.row].claimedAt == Some(c.at)
    ensures var id := s.claims[claim].row;
            var before, after := s.rows[id], Next(s, Land(claim, Dispatched(attempt), now)).rows[id];
            && (after.status == RetryQueued <==> MayYetPass(before, attempt) && |before.rounds| < 6)
            && (after.status == RetryQueued ==>
                  && after.retry.Some? && after.retry.value.attempt == |before.rounds| + 1
                  && after.retry.value.nextAt == now + [1, 2, 5, 10, 20, 30][|before.rounds|] * 60_000)
            && (after.status != RetryQueued ==> after.status.Done? && after.retry.None?)
            && |after.rounds| == |before.rounds| + 1
  {
    RunsAreSound(steps);
    var c := s.claims[claim];
    assert ClaimOk(s, c) && RowOk(s.rows[c.row]);
    WrittenTells(c.seen, attempt, now);
  }

  /** A dispatch that ends before any round ends its event, with the status it came to. */
  lemma {:induction false} ExitsEndTheEvent(steps: seq<Step>, s: State, claim: nat, final: Final, now: int)
    requires s == Run(steps) && claim < |s.claims| && !s.claims[claim].finished && s.clock <= now
    requires var c := s.claims[claim]; c.row < |s.rows| && s.rows[c.row].claimedAt == Some(c.at)
    ensures var id := s.claims[claim].row;
            var after := Next(s, Land(claim, Exit(final), now)).rows[id];
            && after.status == Done(final) && after.retry.None? && after.errors == []
            && after.rounds == s.rows[id].rounds && after.attempts == s.rows[id].attempts
  {
    RunsAreSound(steps);
    assert ClaimOk(s, s.claims[claim]);
  }

  /** The rounds on record are those the attempts made, each at what the ones before it left owed. */
  ghost predicate HistoryOk(row: Row) {
    && row.rounds == RoundsOf(row.attempts)
    && forall i :: 0 <= i < |row.attempts| ==> Distinct(row.attempts[i].channels)
  }

  ghost predicate HistoriesOk(s: State) {
    forall id :: 0 <= id < |s.rows| ==> HistoryOk(s.rows[id])
  }

  lemma {:induction false} WrittenHistory(seen: Row, result: Result, now: int)
    requires RowOk(seen) && InFlight(seen.status) && HistoryOk(seen)
    requires result.Dispatched? ==> Distinct(result.attempt.channels)
    ensures HistoryOk(Written(seen, result, now))
  {
    if result.Dispatched? {
      var more := seen.attempts + [result.attempt];
      assert more[..|seen.attempts|] == seen.attempts;
      RoundsGoOn(seen, RoundOf(result.attempt, Prior(seen)));
    }
  }

  lemma {:induction false} StepKeepsHistories(s: State, step: Step)
    requires Inv(s) && HistoriesOk(s)
    ensures HistoriesOk(Next(s, step))
  {
    if Enabled(s, step) {
      var t := Next(s, step);
      if step.Land? && Holds(s.rows, s.claims[step.claim]) {
        var c := s.claims[step.claim];
        assert ClaimOk(s, c) && RowOk(s.rows[c.row]);
        WrittenHistory(c.seen, step.result, step.now);
      }
      forall id | 0 <= id < |t.rows| ensures HistoryOk(t.rows[id]) {
        assert id < |s.rows| ==> HistoryOk(s.rows[id]);
      }
    }
  }

  lemma {:induction false} RunsKeepHistories(steps: seq<Step>)
    ensures HistoriesOk(Run(steps))
  {
    if steps != [] {
      RunsKeepHistories(steps[..|steps| - 1]);
      RunsAreSound(steps[..|steps| - 1]);
      StepKeepsHistories(Run(steps[..|steps| - 1]), steps[|steps| - 1]);
    }
  }

  lemma {:induction false} RoundsOfInit(attempts: seq<Attempt>)
    requires attempts != []
    ensures RoundsOf(attempts)[..|attempts| - 1] == RoundsOf(attempts[..|attempts| - 1])
  {}

  lemma {:induction false} RoundsOfPrefix(attempts: seq<Attempt>, n: nat)
    requires n <= |attempts|
    ensures RoundsOf(attempts[..n]) == RoundsOf(attempts)[..n]
  {
    if n < |attempts| {
      var init := attempts[..|attempts| - 1];
      RoundsOfPrefix(init, n);
      RoundsOfInit(attempts);
      assert init[..n] == attempts[..n];
    } else {
      assert attempts[..n] == attempts;
    }
  }

  lemma {:induction false} HistoryIsChained(row: Row, n: nat)
    requires Continues(row.rounds) && HistoryOk(row) && n <= |row.attempts|
    ensures Chained(row.attempts[..n]) && RoundsOf(row.attempts[..n]) == row.rounds[..n]
  {
    RoundsOfPrefix(row.attempts, n);
  }

  lemma {:induction false} LeftAlone(made: seq<Attempt>, rounds: seq<Round>, i: nat, j: nat, c: Channel)
    requires Chained(made) && i < j && |made| == j + 1 && SettledAt(made, i, c)
    requires rounds == RoundsOf(made[..j])
    ensures !Contacts(made[j], rounds, c.id)
  {
    hide *;
    SettledChannelsAreLeftAlone(made, i, c);
  }

  lemma {:induction false} SettledInHistory(row: Row, i: nat, j: nat, c: Channel)
    requires Continues(row.rounds) && HistoryOk(row)
    requires i < j < |row.attempts| && SettledAt(row.attempts, i, c)
    ensures !Contacts(row.attempts[j], row.rounds[..j], c.id)
  {
    assert |row.rounds| == |row.attempts|;
    hide *;
    HistoryIsChained(row, j + 1);
    HistoryIsChained(row, j);
    SettledInPrefix(row.attempts, j + 1, i, c);
    assert row.attempts[..j + 1][..j] == row.attempts[..j];
    LeftAlone(row.attempts[..j + 1], row.rounds[..j], i, j, c);
  }

  /**
   * End to end, across workers, hangs and takeovers: a channel that took the message in a landed round, or
   * rejected it for good, is contacted by no later attempt that lands.
   */
  lemma {:induction false} SettledChannelsStaySettled(steps: seq<Step>, row: Row, i: nat, j: nat, c: Channel)
    requires row in Run(steps).rows && i < j < |row.attempts| && SettledAt(row.attempts, i, c)
    ensures row.rounds == RoundsOf(row.attempts)
    ensures !Contacts(row.attempts[j], row.rounds[..j], c.id)
  {
    var s := Run(steps);
    RunsAreSound(steps);
    RunsKeepHistories(steps);
    var id :| 0 <= id < |s.rows| && s.rows[id] == row;
    assert RowOk(s.rows[id]) && HistoryOk(s.rows[id]);
    SettledInHistory(row, i, j, c);
  }

  lemma {:induction false} Extend(steps: seq<Step>, s: State, step: Step) returns (more: seq<Step>, t: State)
    requires s == Run(steps)
    ensures more == steps + [step] && t == Next(s, step) == Run(more)
  {
    more, t := steps + [step], Next(s, step);
    assert more[..|steps|] == steps;
  }

  lemma {:induction false} SomeMailed(attempt: Attempt)
    requires attempt.channels == [] && attempt.subscribers == Some(SubscriberRound(1, [], ["mailbox full"], false))
    ensures var round := RoundOf(attempt, None); round.reached && round.transient != []
  {}

  /** An event whose first attempt reached a subscriber, owed another one, and is claimed for it. */
  lemma {:induction false} RunToARetry(attempt: Attempt) returns (steps: seq<Step>, s: State)
    requires attempt.channels == [] && attempt.subscribers == Some(SubscriberRound(1, [], ["mailbox full"], false))
    ensures s == Run(steps) && |s.rows| == 1 && |s.rows[0].rounds| == 1 && s.rows[0].rounds[0].reached
    ensures |s.claims| == 2 && s.claims[1].row == 0 && s.claims[1].seen == s.rows[0] && !s.claims[1].finished
    ensures s.rows[0].claimedAt == Some(s.claims[1].at) && s.clock == MINUTE
  {
    SomeMailed(attempt);
    s := EMPTY;
    steps := [];
    steps, s := Extend(steps, s, Enqueue(0, false));
    steps, s := Extend(steps, s, Listen(0, 0));
    steps, s := Extend(steps, s, Land(0, Dispatched(attempt), 0));
    assert s.rows[0].status == RetryQueued && s.rows[0].retry.value.nextAt == MINUTE;
    assert s.rows[..0] == [] && RetriesInFlight(s.rows, 0) == 0;
    steps, s := Extend(steps, s, Sweep(Retries, 0, MINUTE, MINUTE));
  }

  /** A retry that finds no channel left reports an event suppressed that had reached someone. */
  lemma {:induction false} ExitMisreports() returns (steps: seq<Step>)
    ensures var rows := Run(steps).rows;
            |rows| == 1 && rows[0].status == Done(Suppressed) && AnyReached(rows[0].rounds)
  {
    var s;
    steps, s := RunToARetry(Attempt([], false, (c: Channel) => SendResult(true, "", false, false),
                                    Some(SubscriberRound(1, [], ["mailbox full"], false))));
    steps, s := Extend(steps, s, Land(1, Exit(Suppressed), MINUTE));
    assert s.rows[0].rounds[0].reached;
  }

  // ---------------------------------------------------------------------------------------------
  // The table
  // ---------------------------------------------------------------------------------------------

  class Table {
    var rows: seq<Row>

    constructor ()
      ensures rows == []
    {
      rows := [];
    }

    /** Claims the event a notification named, unless another worker did first. */
    method ClaimOne(id: nat, now: int) returns (claimed: Option<Row>)
      modifies this
      ensures claimed.Some? <==> id < old(|rows|) && old(rows)[id].status in {Pending, ConfirmationQueued}
      ensures claimed.Some? ==>
                && rows == old(rows)[id := claimed.value]
                && claimed.value
                   == old(rows)[id].(status := if old(rows)[id].status == Pending then Processing
                                               else ConfirmationSending,
                                     claimedAt := Some(now))
      ensures claimed.None? ==> rows == old(rows)
    {
      if id >= |rows| || rows[id].status !in {Pending, ConfirmationQueued} {
        return None;
      }
      var row := rows[id].(status := if rows[id].status == ConfirmationQueued then ConfirmationSending else Processing,
                           claimedAt := Some(now));
      rows := rows[id := row];
      return Some(row);
    }

    /** Claims the oldest claimable event that no other transaction has locked. */
    method ClaimPending(lane: Lane, read: int, now: int, locked: set<nat>) returns (claimed: Option<nat>)
      modifies this
      ensures claimed.Some? ==>
                && claimed.value < old(|rows|) && claimed.value !in locked
                && Free(old(rows), claimed.value, lane, read)
                && (forall id :: 0 <= id < claimed.value ==> id in locked || !Free(old(rows), id, lane, read))
                && rows
                   == old(rows)[claimed.value :=
                        old(rows)[claimed.value].(claimedAt := Some(now),
                                                  status := if lane == Alerts then Processing
                                                            else if lane == Confirmations then ConfirmationSending
                                                            else RetrySending)]
      ensures claimed.None? ==>
                && rows == old(rows)
                && forall id :: 0 <= id < |rows| ==> id in locked || !Free(rows, id, lane, read)
    {
      for id := 0 to |rows|
        invariant rows == old(rows)
        invariant forall k :: 0 <= k < id ==> k in locked || !Free(rows, k, lane, read)
      {
        ClaimableIsFree(rows, id, lane, read);
        if id !in locked && Claimable(rows, id, lane, read) {
          rows := rows[id := rows[id].(status := Claimed(lane), claimedAt := Some(now))];
          return Some(id);
        }
      }
      return None;
    }

    /** Writes what the dispatch came to, unless the claim was lost meanwhile. */
    method LandResult(c: Claim, result: Result, now: int) returns (landed: bool)
      modifies this
      ensures landed == Holds(old(rows), c)
      ensures rows == AfterLanding(old(rows), c, result, now)
    {
      if c.row >= |rows| || rows[c.row].claimedAt != Some(c.at) {
        return false;
      }
      var row := c.seen;
      if result.Exit? {
        row := row.(status := Done(result.final), retry := None, errors := [], exited := true);
      } else {
        var prior := if row.retry.Some? then Some(row.retry.value.progress) else None;
        var fanned := FanOut(result.attempt.channels, prior, result.attempt.overtaken, result.attempt.results);
        var round := WithSubscribers(fanned, result.attempt.subscribers);
        var outcome := Settle(prior, round);
        var retries := if row.retry.Some? then row.retry.value.attempt else 0;
        row := row.(errors := outcome.errors, rounds := row.rounds + [round],
                    attempts := row.attempts + [result.attempt]);
        if outcome.retry.Some? && retries < |ALERT_RETRY_DELAYS_MS| {
          var nextAt := now + ALERT_RETRY_DELAYS_MS[retries];
          row := row.(status := RetryQueued, retry := Some(Retry(outcome.retry.value, retries + 1, nextAt)));
        } else {
          row := row.(status := Done(outcome.final), retry := None);
        }
      }
      rows := rows[c.row := row];
      return true;
    }
  }
}
