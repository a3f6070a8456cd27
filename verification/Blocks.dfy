/**
 * Purchased capacity blocks: bought and reduced by the customer, cleared by billing webhooks, and
 * reduced at the period's end by whoever gets there first
 * (src/lib/server/services/subscription.service.ts).
 */
module Blocks {
  import opened Prelude

  const MAX_MONITOR_BLOCKS := 40
  const PERIOD_BOUNDARY_TOLERANCE_MS := 60_000

  /** A stored plan id may be one that is no longer sold. */
  datatype PlanId = Free | Uppity | Dedicated | Enterprise | Retired(name: string)

  predicate BlockEligible(plan: PlanId) { plan == Uppity }

  datatype Subscription = Subscription(
    plan: PlanId, blocks: int, scheduledBlocks: Option<int>,
    periodStart: Option<int>, periodEnd: Option<int>,
    polarSubscription: Option<nat>, polarCustomer: Option<nat>)

  /** The table's constraints. A statement that would break one fails and changes nothing. */
  predicate Constraints(sub: Subscription) {
    && 0 <= sub.blocks
    && (sub.scheduledBlocks.Some? ==> 0 <= sub.scheduledBlocks.value < sub.blocks)
  }

  /** What a webhook carries. Absent fields keep what is stored. */
  datatype Sync = Sync(plan: PlanId, periodStart: Option<int>, periodEnd: Option<int>,
                       polarSubscription: Option<nat>, polarCustomer: Option<nat>)

  /** When a webhook may write only to the row of its own billing subscription: which one, and whose. */
  datatype Held = Held(subscription: nat, customer: nat)

  predicate HeldBy(sub: Subscription, held: Option<Held>) {
    || held.None?
    || sub.polarSubscription == Some(held.value.subscription)
    || (sub.polarSubscription.None? && sub.polarCustomer == Some(held.value.customer))
  }

  predicate PeriodRolled(existing: Subscription, data: Sync) {
    && data.periodStart.Some? && data.periodEnd.Some? && existing.periodEnd.Some?
    && data.periodStart.value >= existing.periodEnd.value - PERIOD_BOUNDARY_TOLERANCE_MS
  }

  predicate LeavesEligibility(existing: Subscription, data: Sync) {
    BlockEligible(existing.plan) && !BlockEligible(data.plan)
  }

  predicate LandsReduction(existing: Subscription, data: Sync) {
    !LeavesEligibility(existing, data) && existing.scheduledBlocks.Some? && PeriodRolled(existing, data)
  }

  function Or<T>(a: Option<T>, b: Option<T>): Option<T> { if a.Some? then a else b }

  /** The scheduled count of this very row becomes its count. */
  function Reduced(row: Subscription): Subscription {
    row.(blocks := if row.scheduledBlocks.Some? then row.scheduledBlocks.value else row.blocks,
         scheduledBlocks := None)
  }

  /** The sync's write, decided on the row it read as `existing`. */
  function SyncWritten(row: Subscription, existing: Subscription, data: Sync): Subscription {
    var counted := if LeavesEligibility(existing, data) then row.(blocks := 0, scheduledBlocks := None)
                   else if LandsReduction(existing, data) then Reduced(row)
                   else row;
    counted.(plan := data.plan,
             periodStart := Or(data.periodStart, existing.periodStart),
             periodEnd := Or(data.periodEnd, existing.periodEnd),
             polarSubscription := Or(data.polarSubscription, existing.polarSubscription),
             polarCustomer := Or(data.polarCustomer, existing.polarCustomer))
  }

  datatype Refusal = InvalidCount | AboveMax | PlanIneligible | MultiOrgCustomer

  /** Why a request for `n` blocks is refused. `holder`: another organization of the payer holds some. */
  function Refused(sub: Subscription, n: int, holder: bool): Option<Refusal> {
    if n < 0 then Some(InvalidCount)
    else if n > MAX_MONITOR_BLOCKS then Some(AboveMax)
    else if !BlockEligible(sub.plan) then Some(PlanIneligible)
    else if n > sub.blocks && holder then Some(MultiOrgCustomer)
    else None
  }

  /** Whether the change waits for the period's end, decided on the row read as `existing`. */
  predicate Schedules(existing: Subscription, n: int) {
    n < existing.blocks && existing.periodEnd.Some?
  }

  function SetWritten(row: Subscription, existing: Subscription, n: int): Subscription {
    if Schedules(existing, n) then row.(scheduledBlocks := Some(n)) else row.(blocks := n, scheduledBlocks := None)
  }

  predicate Due(row: Subscription, at: int) {
    row.scheduledBlocks.Some? && row.periodEnd.Some? && row.periodEnd.value <= at
  }

  // ---------------------------------------------------------------------------------------------
  // Interleavings
  // ---------------------------------------------------------------------------------------------

  /** A request between its read and its write. */
  datatype Request =
    | Setting(existing: Subscription, n: int)
    | Syncing(existing: Subscription, data: Sync, held: Option<Held>)

  datatype State = State(row: Subscription, requests: seq<Request>)

  /** Each request reads in one statement and writes in another. The sweep is a single statement. */
  datatype Step =
    | SetRead(n: int, holder: bool)
    | SyncRead(data: Sync, held: Option<Held>)
    | Write(request: nat)
    | Sweep(at: int)

  function Proposed(row: Subscription, request: Request): Subscription {
    match request
    case Setting(existing, n) => SetWritten(row, existing, n)
    case Syncing(existing, data, held) => if HeldBy(row, held) then SyncWritten(row, existing, data) else row
  }

  function Next(s: State, step: Step): State {
    match step
    case SetRead(n, holder) =>
      if Refused(s.row, n, holder).Some? then s else s.(requests := s.requests + [Setting(s.row, n)])
    case SyncRead(data, held) => s.(requests := s.requests + [Syncing(s.row, data, held)])
    case Write(i) =>
      if i >= |s.requests| then s
      else
        var row := Proposed(s.row, s.requests[i]);
        State(if Constraints(row) then row else s.row, Without(s.requests, i))
    case Sweep(at) => if Due(s.row, at) then s.(row := Reduced(s.row)) else s
  }

  function Run(s: State, steps: seq<Step>): State {
    if steps == [] then s else Next(Run(s, steps[..|steps| - 1]), steps[|steps| - 1])
  }

  /** Requests ask for counts in range, of rows that met the constraints. */
  ghost predicate Inv(s: State) {
    && Constraints(s.row)
    && forall i :: 0 <= i < |s.requests| ==>
         && Constraints(s.requests[i].existing)
         && (s.requests[i].Setting? ==> 0 <= s.requests[i].n <= MAX_MONITOR_BLOCKS)
  }

  lemma {:induction false} StepKeepsInv(s: State, step: Step)
    requires Inv(s)
    ensures Inv(Next(s, step))
  {}

  lemma {:induction false} RunsAreSound(s: State, steps: seq<Step>)
    requires Inv(s)
    ensures Inv(Run(s, steps))
  {
    if steps != [] {
      RunsAreSound(s, steps[..|steps| - 1]);
      StepKeepsInv(Run(s, steps[..|steps| - 1]), steps[|steps| - 1]);
    }
  }

  // ---------------------------------------------------------------------------------------------
  // What holds under any interleaving
  // ---------------------------------------------------------------------------------------------

  /**
   * The protocol needs the table's constraints in one case only: a reduction decided on a count that
   * another write has since lowered to the requested one or below. No other write ever breaks them.
   */
  lemma {:induction false} ConstraintsStopStaleReductionsOnly(s: State, steps: seq<Step>, i: nat)
    requires Inv(s) && i < |Run(s, steps).requests|
    ensures var t := Run(s, steps);
            var r := t.requests[i];
            !Constraints(Proposed(t.row, r))
            <==> r.Setting? && Schedules(r.existing, r.n) && t.row.blocks <= r.n
  {
    RunsAreSound(s, steps);
  }

  /**
   * A customer asks to go from five blocks to three at the period's end. Before that is written, a webhook
   * ends the plan and clears the count: the table's constraints turn the write down.
   */
  lemma {:induction false} StaleReductionMeetsTheConstraints() returns (s: State, steps: seq<Step>)
    ensures Inv(s) && s.requests == []
    ensures var t := Run(s, steps);
            |t.requests| == 1 && t.row.blocks == 0 && !Constraints(Proposed(t.row, t.requests[0]))
  {
    var read, sync := SetRead(3, false), SyncRead(Sync(Free, None, None, None, None), None);
    s := State(Subscription(Uppity, 5, None, Some(0), Some(100), None, None), []);
    steps := [read, sync, Write(1)];
    Run3(s, read, sync, Write(1));
    var r := Next(Next(s, read), sync);
    assert r.requests == [Setting(s.row, 3), Syncing(s.row, sync.data, None)];
  }

  /** Only a customer's request raises the count, and never past the one asked for. */
  lemma {:induction false} OnlyRequestsRaise(s: State, steps: seq<Step>, step: Step)
    requires Inv(s)
    ensures var t := Run(s, steps);
            Next(t, step).row.blocks > t.row.blocks
            ==> step.Write? && step.request < |t.requests|
                && t.requests[step.request].Setting? && Next(t, step).row.blocks == t.requests[step.request].n
  {
    RunsAreSound(s, steps);
  }

  /** The step writes no customer's request. It may read one. */
  predicate IsSyncing(s: State, step: Step) {
    step.Write? && step.request < |s.requests| ==> s.requests[step.request].Syncing?
  }

  predicate OnlySyncing(s: State, steps: seq<Step>) {
    steps != [] ==> OnlySyncing(s, steps[..|steps| - 1]) && IsSyncing(Run(s, steps[..|steps| - 1]), steps[|steps| - 1])
  }

  /** The step writes a webhook that read an eligible plan and brings one that is not. */
  predicate Clears(s: State, step: Step) {
    && step.Write? && step.request < |s.requests|
    && var r := s.requests[step.request];
       r.Syncing? && HeldBy(s.row, r.held) && LeavesEligibility(r.existing, r.data)
  }

  predicate AnyClears(s: State, steps: seq<Step>) {
    && steps != []
    && (AnyClears(s, steps[..|steps| - 1]) || Clears(Run(s, steps[..|steps| - 1]), steps[|steps| - 1]))
  }

  lemma {:induction false} SyncingStep(s: State, step: Step)
    requires s.row.scheduledBlocks.None? && IsSyncing(s, step)
    ensures var row := Next(s, step).row;
            && row.scheduledBlocks.None?
            && row.blocks in {s.row.blocks, 0}
            && (Clears(s, step) ==> row.blocks == 0)
            && (!Clears(s, step) ==> row.blocks == s.row.blocks)
  {}

  lemma {:induction false} SyncsKeepTheCount(s: State, steps: seq<Step>)
    requires s.row.scheduledBlocks.None? && OnlySyncing(s, steps)
    ensures var row := Run(s, steps).row;
            row.scheduledBlocks.None? && row.blocks == if AnyClears(s, steps) then 0 else s.row.blocks
  {
    if steps != [] {
      SyncsKeepTheCount(s, steps[..|steps| - 1]);
      SyncingStep(Run(s, steps[..|steps| - 1]), steps[|steps| - 1]);
    }
  }

  /**
   * A raise or a cancellation that has landed stands over any webhooks and sweeps that follow, however many
   * of them read the row before it landed, until one that takes the plan out of eligibility clears the count.
   */
  lemma {:induction false} LandedRequestSurvivesSyncs(s: State, landing: nat, more: seq<Step>)
    requires Inv(s) && landing < |s.requests| && s.requests[landing].Setting?
    requires !Schedules(s.requests[landing].existing, s.requests[landing].n)
    requires OnlySyncing(Next(s, Write(landing)), more)
    ensures var landed := Next(s, Write(landing));
            var row := Run(landed, more).row;
            && landed.row.blocks == s.requests[landing].n && landed.row.scheduledBlocks.None?
            && row.blocks == (if AnyClears(landed, more) then 0 else s.requests[landing].n)
            && row.scheduledBlocks.None?
  {
    SyncsKeepTheCount(Next(s, Write(landing)), more);
  }

  /** The step lands the row's reduction: a sweep that finds it due, or a webhook that saw it and rolled. */
  predicate Lands(s: State, step: Step) {
    && s.row.scheduledBlocks.Some?
    && match step
       case Sweep(at) => Due(s.row, at)
       case Write(i) =>
         && i < |s.requests| && s.requests[i].Syncing? && HeldBy(s.row, s.requests[i].held)
         && LandsReduction(s.requests[i].existing, s.requests[i].data)
       case _ => false
  }

  /** The step asks for nothing new and keeps the plan eligible. */
  predicate IsBilling(s: State, step: Step) {
    step.Write? && step.request < |s.requests| ==>
      && s.requests[step.request].Syncing?
      && !LeavesEligibility(s.requests[step.request].existing, s.requests[step.request].data)
  }

  predicate OnlyBilling(s: State, steps: seq<Step>) {
    steps != [] ==> OnlyBilling(s, steps[..|steps| - 1]) && IsBilling(Run(s, steps[..|steps| - 1]), steps[|steps| - 1])
  }

  /** Whether any of the steps landed the reduction. */
  predicate AnyLands(s: State, steps: seq<Step>) {
    && steps != []
    && (AnyLands(s, steps[..|steps| - 1]) || Lands(Run(s, steps[..|steps| - 1]), steps[|steps| - 1]))
  }

  lemma {:induction false} BillingStep(s: State, step: Step)
    requires Inv(s) && IsBilling(s, step)
    ensures var row := Next(s, step).row;
            if Lands(s, step) then row.blocks == s.row.scheduledBlocks.value && row.scheduledBlocks.None?
            else row.blocks == s.row.blocks && row.scheduledBlocks == s.row.scheduledBlocks
  {}

  /**
   * However webhooks and sweeps interleave and repeat, a scheduled reduction lands as soon as one of
   * them lands it, once, at the scheduled count, and stays landed.
   */
  lemma {:induction false} ReductionLandsOnce(s: State, steps: seq<Step>)
    requires Inv(s) && s.row.scheduledBlocks.Some? && OnlyBilling(s, steps)
    ensures var r := Run(s, steps).row;
            if AnyLands(s, steps) then r.blocks == s.row.scheduledBlocks.value && r.scheduledBlocks.None?
            else r.blocks == s.row.blocks && r.scheduledBlocks == s.row.scheduledBlocks
  {
    if steps != [] {
      ReductionLandsOnce(s, steps[..|steps| - 1]);
      RunsAreSound(s, steps[..|steps| - 1]);
      BillingStep(Run(s, steps[..|steps| - 1]), steps[|steps| - 1]);
    }
  }

  /** The renewal of one period and its sweeps: webhooks that carry it, read and written, and sweeps past its end. */
  predicate Renews(row: Subscription, data: Sync, step: Step) {
    match step
    case SyncRead(d, held) => d == data && HeldBy(row, held)
    case Sweep(at) => row.periodEnd.Some? && row.periodEnd.value <= at
    case Write(_) => true
    case SetRead(_, _) => false
  }

  predicate OnlyRenews(row: Subscription, data: Sync, steps: seq<Step>) {
    forall k :: 0 <= k < |steps| ==> Renews(row, data, steps[k])
  }

  /** Whether a sweep ran, or a webhook came to its write. */
  predicate AnyActs(s: State, steps: seq<Step>) {
    && steps != []
    && var n := |steps| - 1;
       || AnyActs(s, steps[..n])
       || steps[n].Sweep?
       || (steps[n].Write? && steps[n].request < |Run(s, steps[..n]).requests|)
  }

  /** Before anything acted, the row is as it was and every webhook read it so. Afterwards the reduction has landed. */
  ghost predicate Renewing(s: State, t: State, data: Sync, acted: bool)
    requires s.row.scheduledBlocks.Some?
  {
    && (forall i :: 0 <= i < |t.requests| ==>
          && t.requests[i].Syncing? && t.requests[i].data == data
          && (t.requests[i].existing == s.row
              || (t.requests[i].existing.scheduledBlocks.None?
                  && (BlockEligible(t.requests[i].existing.plan) ==> BlockEligible(data.plan)))))
    && (BlockEligible(t.row.plan) ==> BlockEligible(data.plan))
    && if !acted then
         && t.row == s.row
         && forall i :: 0 <= i < |t.requests| ==>
              t.requests[i].existing == s.row && HeldBy(s.row, t.requests[i].held)
       else t.row.blocks == s.row.scheduledBlocks.value && t.row.scheduledBlocks.None?
  }

  lemma {:induction false} RenewingStep(s: State, t: State, data: Sync, step: Step, acted: bool)
    requires Constraints(s.row) && LandsReduction(s.row, data) && Renews(s.row, data, step)
    requires Renewing(s, t, data, acted)
    ensures Renewing(s, Next(t, step), data,
                     acted || step.Sweep? || (step.Write? && step.request < |t.requests|))
  {}

  /**
   * The renewal webhook, delivered however often, and the sweep, run however often, in any order and with
   * reads and writes apart: once one of them acted, the reduction has landed, with the same count, and stays.
   */
  lemma {:induction false} WebhookAndSweepAgree(s: State, data: Sync, steps: seq<Step>)
    requires Constraints(s.row) && s.requests == [] && LandsReduction(s.row, data) && OnlyRenews(s.row, data, steps)
    ensures var r := Run(s, steps).row;
            if AnyActs(s, steps) then r.blocks == s.row.scheduledBlocks.value && r.scheduledBlocks.None? else r == s.row
    ensures Renewing(s, Run(s, steps), data, AnyActs(s, steps))
  {
    if steps != [] {
      var n := |steps| - 1;
      WebhookAndSweepAgree(s, data, steps[..n]);
      RenewingStep(s, Run(s, steps[..n]), data, steps[n], AnyActs(s, steps[..n]));
    }
  }

  lemma {:induction false} Run1(s: State, a: Step)
    ensures Run(s, [a]) == Next(s, a)
  {
    assert [a][..0] == [];
  }

  lemma {:induction false} Run2(s: State, a: Step, b: Step)
    ensures Run(s, [a, b]) == Next(Next(s, a), b)
  {
    assert [a, b][..1] == [a];
    Run1(s, a);
  }

  lemma {:induction false} Run3(s: State, a: Step, b: Step, c: Step)
    ensures Run(s, [a, b, c]) == Next(Next(Next(s, a), b), c)
  {
    assert [a, b, c][..2] == [a, b];
    Run2(s, a, b);
  }

  // ---------------------------------------------------------------------------------------------
  // What each writer does, told by the rows alone
  // ---------------------------------------------------------------------------------------------

  /** A request for blocks is refused for the first of four causes, and read otherwise. */
  lemma {:induction false} RefusalsHaveTheirCause(s: State, n: int, holder: bool)
    ensures var refused := Refused(s.row, n, holder);
            && (refused == Some(InvalidCount) <==> n < 0)
            && (refused == Some(AboveMax) <==> n > 40)
            && (refused == Some(PlanIneligible) <==> 0 <= n <= 40 && s.row.plan != Uppity)
            && (refused == Some(MultiOrgCustomer) <==>
                  0 <= n <= 40 && s.row.plan == Uppity && holder && n > s.row.blocks)
            && (refused.None? <==> 0 <= n <= 40 && s.row.plan == Uppity && !(holder && n > s.row.blocks))
            && Next(s, SetRead(n, holder))
               == if refused.None? then s.(requests := s.requests + [Setting(s.row, n)]) else s
  {}

  /**
   * The write of a request changes the count at once unless it read more blocks and a period's end: then it only
   * schedules the reduction. Asking for the count held drops what was scheduled.
   */
  lemma {:induction false} RequestsWrite(row: Subscription, existing: Subscription, n: int)
    ensures var after := SetWritten(row, existing, n);
            if n < existing.blocks && existing.periodEnd.Some? then
              after == row.(scheduledBlocks := Some(n))
            else
              after == row.(blocks := n, scheduledBlocks := None)
  {}

  /** The webhook read a reduction, and its period starts where the one on record ended, give or take a minute. */
  ghost predicate Rolls(existing: Subscription, data: Sync) {
    && existing.scheduledBlocks.Some? && existing.periodEnd.Some?
    && data.periodStart.Some? && data.periodEnd.Some?
    && existing.periodEnd.value <= data.periodStart.value + 60_000
  }

  /**
   * A webhook clears the count when it takes the plan from Uppity to another, lands the reduction of the row it
   * writes when it carries the next period, and leaves the count alone otherwise. Of the other columns it keeps what
   * it does not carry.
   */
  lemma {:induction false} SyncsWrite(row: Subscription, existing: Subscription, data: Sync)
    ensures var after := SyncWritten(row, existing, data);
            && after.plan == data.plan
            && (if existing.plan == Uppity && data.plan != Uppity then
                  after.blocks == 0 && after.scheduledBlocks == None
                else if Rolls(existing, data) then
                  && after.scheduledBlocks == None
                  && after.blocks == (if row.scheduledBlocks == None then row.blocks else row.scheduledBlocks.value)
                else after.blocks == row.blocks && after.scheduledBlocks == row.scheduledBlocks)
            && after.periodStart == (if data.periodStart != None then data.periodStart else existing.periodStart)
            && after.periodEnd == (if data.periodEnd != None then data.periodEnd else existing.periodEnd)
            && after.polarSubscription
               == (if data.polarSubscription != None then data.polarSubscription else existing.polarSubscription)
            && after.polarCustomer
               == (if data.polarCustomer != None then data.polarCustomer else existing.polarCustomer)
  {}

  /** A webhook about one billing subscription writes to a row that names it, or names only its customer. */
  lemma {:induction false} HeldRowsAreTheirs(row: Subscription, held: Option<Held>)
    ensures HeldBy(row, held)
            <==> match held
                 case None => true
                 case Some(h) =>
                   if row.polarSubscription != None then row.polarSubscription.value == h.subscription
                   else row.polarCustomer != None && row.polarCustomer.value == h.customer
  {}

  /** A write takes effect unless it breaks a constraint, and either way its request is done with. */
  lemma {:induction false} WritesTakeEffect(s: State, i: nat)
    requires i < |s.requests|
    ensures var t, r := Next(s, Write(i)), s.requests[i];
            var proposed := match r
              case Setting(existing, n) => SetWritten(s.row, existing, n)
              case Syncing(existing, data, held) =>
                if HeldBy(s.row, held) then SyncWritten(s.row, existing, data) else s.row;
            var broken := || proposed.blocks < 0
                          || (proposed.scheduledBlocks.Some?
                              && !(0 <= proposed.scheduledBlocks.value < proposed.blocks));
            t.row == (if broken then s.row else proposed) && t.requests == Without(s.requests, i)
  {}

  /** The sweep lands a reduction exactly when the period on record is over, and changes nothing else. */
  lemma {:induction false} SweepsLandExactlyWhen(s: State, at: int)
    ensures var t := Next(s, Sweep(at));
            t == if s.row.scheduledBlocks.Some? && s.row.periodEnd.Some? && s.row.periodEnd.value <= at then
                   s.(row := s.row.(blocks := s.row.scheduledBlocks.value, scheduledBlocks := None))
                 else s
  {}

  // ---------------------------------------------------------------------------------------------
  // The service
  // ---------------------------------------------------------------------------------------------

  class SubscriptionService {
    var rows: seq<Subscription>

    constructor (rows: seq<Subscription>)
      ensures this.rows == rows
    {
      this.rows := rows;
    }

    /** `ok` is false when the request is refused, and then nothing is written. */
    method SetBlocks(i: nat, n: int, holder: bool) returns (refusal: Option<Refusal>)
      requires i < |rows| && Constraints(rows[i])
      modifies this
      ensures refusal == Refused(old(rows)[i], n, holder)
      ensures rows == if refusal.Some? then old(rows) else old(rows)[i := SetWritten(old(rows)[i], old(rows)[i], n)]
      ensures Constraints(rows[i])
    {
      var sub := rows[i];
      if n < 0 {
        return Some(InvalidCount);
      }
      if n > MAX_MONITOR_BLOCKS {
        return Some(AboveMax);
      }
      if !BlockEligible(sub.plan) {
        return Some(PlanIneligible);
      }
      if n > sub.blocks && holder {
        return Some(MultiOrgCustomer);
      }
      if n < sub.blocks && sub.periodEnd.Some? {
        sub := sub.(scheduledBlocks := Some(n));
      } else {
        sub := sub.(blocks := n, scheduledBlocks := None);
      }
      rows := rows[i := sub];
      return None;
    }

    /** The sweep: reduces the rows that are due, whichever they are, and answers how many those were. */
    method ApplyScheduledReductions(at: int) returns (applied: nat)
      modifies this
      ensures |rows| == |old(rows)|
      ensures forall i :: 0 <= i < |rows| ==>
                rows[i] == if Due(old(rows)[i], at) then Reduced(old(rows)[i]) else old(rows)[i]
      ensures applied == |set i | 0 <= i < |rows| && Due(old(rows)[i], at)|
    {
      applied := 0;
      for i := 0 to |rows|
        invariant |rows| == |old(rows)|
        invariant forall k :: i <= k < |rows| ==> rows[k] == old(rows)[k]
        invariant forall k :: 0 <= k < i ==>
            rows[k] == if Due(old(rows)[k], at) then Reduced(old(rows)[k]) else old(rows)[k]
        invariant applied == |set k | 0 <= k < i && Due(old(rows)[k], at)|
      {
        ghost var done := set k | 0 <= k < i && Due(old(rows)[k], at);
        assert (set k | 0 <= k < i + 1 && Due(old(rows)[k], at)) == done + if Due(old(rows)[i], at) then {i} else {};
        var row := rows[i];
        if row.scheduledBlocks.Some? && row.periodEnd.Some? && row.periodEnd.value <= at {
          rows := rows[i := row.(blocks := row.scheduledBlocks.value, scheduledBlocks := None)];
          applied := applied + 1;
        }
      }
    }

    /** Writes a webhook's data. False when the row belongs to another subscription, which it then leaves alone. */
    method ApplySync(i: nat, data: Sync, held: Option<Held>) returns (applied: bool)
      requires i < |rows|
      modifies this
      ensures applied == HeldBy(old(rows)[i], held)
      ensures rows == if applied then old(rows)[i := SyncWritten(old(rows)[i], old(rows)[i], data)] else old(rows)
    {
      var row := rows[i];
      if !HeldBy(row, held) {
        return false;
      }
      var written := row;
      if BlockEligible(row.plan) && !BlockEligible(data.plan) {
        written := written.(blocks := 0, scheduledBlocks := None);
      } else if row.scheduledBlocks.Some? && PeriodRolled(row, data) {
        written := written.(blocks := row.scheduledBlocks.value, scheduledBlocks := None);
      }
      written := written.(plan := data.plan,
        periodStart := Or(data.periodStart, row.periodStart), periodEnd := Or(data.periodEnd, row.periodEnd),
        polarSubscription := Or(data.polarSubscription, row.polarSubscription),
        polarCustomer := Or(data.polarCustomer, row.polarCustomer));
      rows := rows[i := written];
      return true;
    }
  }
}
