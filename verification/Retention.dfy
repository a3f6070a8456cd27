/**
 * Check retention. Organizations with equal windows share a delete
 * (src/lib/constants/plans.ts and src/worker/monitor/stats.ts).
 */
module Retention {
  import opened Prelude

  const DAY := 86_400_000

  type PlanId = string
  type Org = nat
  type Monitor = nat
  type CheckId = nat

  /** `retentionDays` is -1 where the plan sets no limit of its own. */
  datatype Plan = Plan(id: PlanId, retentionDays: int)

  /** Plans that share one window. The group of the default plan is the catch-all. */
  datatype Group = Group(days: int, planIds: seq<PlanId>, catchAll: bool)

  function Days(plan: Plan, fallback: int): int {
    if plan.retentionDays == -1 then fallback else plan.retentionDays
  }

  // ---------------------------------------------------------------------------------------------
  // Grouping
  // ---------------------------------------------------------------------------------------------

  datatype Bucket = Bucket(days: int, ids: seq<PlanId>)

  function AddTo(buckets: seq<Bucket>, days: int, id: PlanId): seq<Bucket> {
    if buckets == [] then [Bucket(days, [id])]
    else if buckets[0].days == days then [buckets[0].(ids := buckets[0].ids + [id])] + buckets[1..]
    else [buckets[0]] + AddTo(buckets[1..], days, id)
  }

  /** Windows in the order they first appear, each with its plans in table order. */
  function ByDays(plans: seq<Plan>, fallback: int): seq<Bucket> {
    if plans == [] then []
    else
      var last := plans[|plans| - 1];
      AddTo(ByDays(plans[..|plans| - 1], fallback), Days(last, fallback), last.id)
  }

  function ToGroup(b: Bucket, defaultId: PlanId): Group {
    Group(b.days, b.ids, defaultId in b.ids)
  }

  function RetentionGroups(plans: seq<Plan>, defaultId: PlanId, fallback: int): seq<Group> {
    var buckets := ByDays(plans, fallback);
    seq(|buckets|, i requires 0 <= i < |buckets| => ToGroup(buckets[i], defaultId))
  }

  ghost predicate DistinctDays(buckets: seq<Bucket>) {
    forall i, j :: 0 <= i < j < |buckets| ==> buckets[i].days != buckets[j].days
  }

  ghost predicate Holds(buckets: seq<Bucket>, days: int, id: PlanId) {
    exists i :: 0 <= i < |buckets| && buckets[i].days == days && id in buckets[i].ids
  }

  lemma {:induction false} HoldsAt(buckets: seq<Bucket>, i: nat, id: PlanId)
    requires i < |buckets| && id in buckets[i].ids
    ensures Holds(buckets, buckets[i].days, id)
  {}

  lemma {:induction false} HoldsAfter(first: Bucket, rest: seq<Bucket>, days: int, id: PlanId)
    ensures Holds([first] + rest, days, id) <==> (first.days == days && id in first.ids) || Holds(rest, days, id)
  {
    var all := [first] + rest;
    if first.days == days && id in first.ids { assert all[0] == first; }
    if Holds(rest, days, id) {
      var i :| 0 <= i < |rest| && rest[i].days == days && id in rest[i].ids;
      assert all[i + 1] == rest[i];
    }
    if Holds(all, days, id) {
      var i :| 0 <= i < |all| && all[i].days == days && id in all[i].ids;
      if i > 0 { assert rest[i - 1] == all[i]; }
    }
  }

  /** Adding a plan puts it with its window, and leaves every other plan where it was. */
  lemma {:induction false} AddToHolds(buckets: seq<Bucket>, days: int, id: PlanId, d: int, p: PlanId)
    ensures Holds(AddTo(buckets, days, id), d, p) <==> Holds(buckets, d, p) || (d == days && p == id)
  {
    if buckets == [] {
      assert AddTo(buckets, days, id) == [Bucket(days, [id])];
      HoldsAfter(Bucket(days, [id]), [], d, p);
      assert [Bucket(days, [id])] + [] == [Bucket(days, [id])];
    } else {
      assert buckets == [buckets[0]] + buckets[1..];
      HoldsAfter(buckets[0], buckets[1..], d, p);
      if buckets[0].days == days {
        HoldsAfter(buckets[0].(ids := buckets[0].ids + [id]), buckets[1..], d, p);
      } else {
        HoldsAfter(buckets[0], AddTo(buckets[1..], days, id), d, p);
        AddToHolds(buckets[1..], days, id, d, p);
      }
    }
  }

  lemma {:induction false} AddToDays(buckets: seq<Bucket>, days: int, id: PlanId)
    ensures forall b :: b in AddTo(buckets, days, id) ==> b.days == days || exists c :: c in buckets && c.days == b.days
  {
    if buckets != [] && buckets[0].days != days { AddToDays(buckets[1..], days, id); }
  }

  lemma {:induction false} AddToKeepsDistinct(buckets: seq<Bucket>, days: int, id: PlanId)
    requires DistinctDays(buckets)
    ensures DistinctDays(AddTo(buckets, days, id))
  {
    if buckets != [] && buckets[0].days != days {
      var rest := AddTo(buckets[1..], days, id);
      AddToKeepsDistinct(buckets[1..], days, id);
      AddToDays(buckets[1..], days, id);
      forall i | 0 <= i < |rest| ensures rest[i].days != buckets[0].days {
        assert rest[i] in rest;
        if rest[i].days != days {
          var c :| c in buckets[1..] && c.days == rest[i].days;
        }
      }
    }
  }

  lemma {:induction false} ByDaysIsDistinct(plans: seq<Plan>, fallback: int)
    ensures DistinctDays(ByDays(plans, fallback))
  {
    if plans != [] {
      var n := |plans| - 1;
      ByDaysIsDistinct(plans[..n], fallback);
      AddToKeepsDistinct(ByDays(plans[..n], fallback), Days(plans[n], fallback), plans[n].id);
    }
  }

  /** A plan is in a window's group exactly when the table gives it that window. */
  lemma {:induction false} ByDaysHolds(plans: seq<Plan>, fallback: int, days: int, id: PlanId)
    ensures Holds(ByDays(plans, fallback), days, id) <==>
              exists p :: p in plans && p.id == id && Days(p, fallback) == days
  {
    if plans != [] {
      var n := |plans| - 1;
      ByDaysHolds(plans[..n], fallback, days, id);
      AddToHolds(ByDays(plans[..n], fallback), Days(plans[n], fallback), plans[n].id, days, id);
      assert plans == plans[..n] + [plans[n]];
    }
  }

  // ---------------------------------------------------------------------------------------------
  // The organizations of a group
  // ---------------------------------------------------------------------------------------------

  ghost predicate UniqueIds(plans: seq<Plan>) {
    forall i, j :: 0 <= i < j < |plans| ==> plans[i].id != plans[j].id
  }

  predicate Listed(plans: seq<Plan>, id: PlanId) {
    exists i :: 0 <= i < |plans| && plans[i].id == id
  }

  /** The plan of the organization's subscription, or the default without one. */
  function EffectivePlan(subscriptions: map<Org, PlanId>, defaultId: PlanId, org: Org): PlanId {
    if org in subscriptions then subscriptions[org] else defaultId
  }

  function ExplicitIds(groups: seq<Group>): seq<PlanId> {
    if groups == [] then []
    else
      var last := groups[|groups| - 1];
      ExplicitIds(groups[..|groups| - 1]) + if last.catchAll then [] else last.planIds
  }

  /** The plan filter of a group's delete: the catch-all is whatever no other group names. */
  predicate InGroup(groups: seq<Group>, g: Group, plan: PlanId) {
    if !g.catchAll then plan in g.planIds
    else if ExplicitIds(groups) != [] then plan !in ExplicitIds(groups)
    else true
  }

  /** The window an organization's plan gives it by itself. A plan no longer in the table counts as the default. */
  ghost function Window(plans: seq<Plan>, defaultId: PlanId, fallback: int, plan: PlanId): int
    requires Listed(plans, defaultId)
  {
    var id := if Listed(plans, plan) then plan else defaultId;
    var i :| 0 <= i < |plans| && plans[i].id == id;
    Days(plans[i], fallback)
  }

  lemma {:induction false} ExplicitMeansElsewhere(groups: seq<Group>, plan: PlanId)
    ensures plan in ExplicitIds(groups) <==>
              exists i :: 0 <= i < |groups| && !groups[i].catchAll && plan in groups[i].planIds
  {
    if groups != [] {
      var n := |groups| - 1;
      ExplicitMeansElsewhere(groups[..n], plan);
      assert groups == groups[..n] + [groups[n]];
      if plan in ExplicitIds(groups[..n]) {
        var i :| 0 <= i < n && !groups[..n][i].catchAll && plan in groups[..n][i].planIds;
        assert groups[i] == groups[..n][i];
      }
      if i :| 0 <= i < |groups| && !groups[i].catchAll && plan in groups[i].planIds {
        if i < n { assert groups[..n][i] == groups[i]; }
      }
    }
  }

  /** A plan the table holds has its own window's group, and no other. */
  lemma {:induction false} ListedPlansHaveOneGroup(plans: seq<Plan>, defaultId: PlanId, fallback: int, plan: PlanId,
                                                   i: nat)
    requires UniqueIds(plans) && Listed(plans, defaultId) && Listed(plans, plan)
    requires i < |RetentionGroups(plans, defaultId, fallback)|
    ensures var g := RetentionGroups(plans, defaultId, fallback)[i];
            plan in g.planIds <==> g.days == Window(plans, defaultId, fallback, plan)
  {
    var buckets := ByDays(plans, fallback);
    var k :| 0 <= k < |plans| && plans[k].id == plan
             && Days(plans[k], fallback) == Window(plans, defaultId, fallback, plan);
    var days := Days(plans[k], fallback);
    ByDaysHolds(plans, fallback, days, plan);
    assert plans[k] in plans;
    ByDaysIsDistinct(plans, fallback);
    var j :| 0 <= j < |buckets| && buckets[j].days == days && plan in buckets[j].ids;
    if plan in buckets[i].ids {
      ByDaysHolds(plans, fallback, buckets[i].days, plan);
      HoldsAt(buckets, i, plan);
      var p :| p in plans && p.id == plan && Days(p, fallback) == buckets[i].days;
      var m :| 0 <= m < |plans| && plans[m] == p;
      assert m == k;
    }
  }

  lemma {:induction false} WindowHasAGroup(plans: seq<Plan>, defaultId: PlanId, fallback: int, plan: PlanId)
    requires UniqueIds(plans) && Listed(plans, defaultId)
    ensures exists i :: 0 <= i < |RetentionGroups(plans, defaultId, fallback)|
                        && RetentionGroups(plans, defaultId, fallback)[i].days
                           == Window(plans, defaultId, fallback, plan)
  {
    var buckets, groups := ByDays(plans, fallback), RetentionGroups(plans, defaultId, fallback);
    var id := if Listed(plans, plan) then plan else defaultId;
    var days := Window(plans, defaultId, fallback, plan);
    var k :| 0 <= k < |plans| && plans[k].id == id && Days(plans[k], fallback) == days;
    assert plans[k] in plans;
    ByDaysHolds(plans, fallback, days, id);
    var j :| 0 <= j < |buckets| && buckets[j].days == days && id in buckets[j].ids;
    assert groups[j].days == days;
  }

  lemma {:induction false} UnlistedPlansHaveNoGroup(plans: seq<Plan>, defaultId: PlanId, fallback: int, plan: PlanId,
                                                    i: nat)
    requires !Listed(plans, plan) && i < |RetentionGroups(plans, defaultId, fallback)|
    ensures plan !in RetentionGroups(plans, defaultId, fallback)[i].planIds
  {
    var buckets := ByDays(plans, fallback);
    if plan in buckets[i].ids {
      HoldsAt(buckets, i, plan);
      ByDaysHolds(plans, fallback, buckets[i].days, plan);
    }
  }

  /** The catch-all is the one group with the default plan's window. */
  lemma {:induction false} CatchAllIsTheDefaults(plans: seq<Plan>, defaultId: PlanId, fallback: int, i: nat)
    requires UniqueIds(plans) && Listed(plans, defaultId)
    requires i < |RetentionGroups(plans, defaultId, fallback)|
    ensures var g := RetentionGroups(plans, defaultId, fallback)[i];
            g.catchAll <==> g.days == Window(plans, defaultId, fallback, defaultId)
  {
    ListedPlansHaveOneGroup(plans, defaultId, fallback, defaultId, i);
  }

  lemma {:induction false} OnlyOneGroupHasTheDays(plans: seq<Plan>, defaultId: PlanId, fallback: int, i: nat, j: nat)
    requires var n := |RetentionGroups(plans, defaultId, fallback)|; i < n && j < n
    requires RetentionGroups(plans, defaultId, fallback)[i].days == RetentionGroups(plans, defaultId, fallback)[j].days
    ensures i == j
  {
    ByDaysIsDistinct(plans, fallback);
  }

  /** Whether some other group than the catch-all names the plan. */
  lemma {:induction false} ExplicitExactlyWhen(plans: seq<Plan>, defaultId: PlanId, fallback: int, plan: PlanId)
    requires UniqueIds(plans) && Listed(plans, defaultId)
    ensures var groups := RetentionGroups(plans, defaultId, fallback);
            plan in ExplicitIds(groups) <==>
              Window(plans, defaultId, fallback, plan) != Window(plans, defaultId, fallback, defaultId)
  {
    var groups := RetentionGroups(plans, defaultId, fallback);
    ExplicitMeansElsewhere(groups, plan);
    if Listed(plans, plan) {
      WindowHasAGroup(plans, defaultId, fallback, plan);
      var j :| 0 <= j < |groups| && groups[j].days == Window(plans, defaultId, fallback, plan);
      ListedPlansHaveOneGroup(plans, defaultId, fallback, plan, j);
      CatchAllIsTheDefaults(plans, defaultId, fallback, j);
      if i :| 0 <= i < |groups| && !groups[i].catchAll && plan in groups[i].planIds {
        ListedPlansHaveOneGroup(plans, defaultId, fallback, plan, i);
        OnlyOneGroupHasTheDays(plans, defaultId, fallback, i, j);
      }
    } else {
      forall i | 0 <= i < |groups| ensures plan !in groups[i].planIds {
        UnlistedPlansHaveNoGroup(plans, defaultId, fallback, plan, i);
      }
    }
  }

  /**
   * Whatever plan an organization is on, a retired one or none at all included, exactly one group's
   * delete covers it: the group with the window that its own plan gives it.
   */
  lemma {:induction false} EveryOrganizationHasOneGroup(plans: seq<Plan>, subscriptions: map<Org, PlanId>,
                                                        defaultId: PlanId, fallback: int, org: Org)
    requires UniqueIds(plans) && Listed(plans, defaultId)
    ensures var groups := RetentionGroups(plans, defaultId, fallback);
            var plan := EffectivePlan(subscriptions, defaultId, org);
            && (exists i :: 0 <= i < |groups| && InGroup(groups, groups[i], plan))
            && (forall i, j :: 0 <= i < j < |groups| ==>
                  !InGroup(groups, groups[i], plan) || !InGroup(groups, groups[j], plan))
            && (forall i :: 0 <= i < |groups| ==>
                  (InGroup(groups, groups[i], plan) <==> groups[i].days == Window(plans, defaultId, fallback, plan)))
  {
    var groups := RetentionGroups(plans, defaultId, fallback);
    var plan := EffectivePlan(subscriptions, defaultId, org);
    forall i | 0 <= i < |groups|
      ensures InGroup(groups, groups[i], plan) <==> groups[i].days == Window(plans, defaultId, fallback, plan)
    {
      GroupIsTheWindows(plans, defaultId, fallback, plan, i);
    }
    WindowHasAGroup(plans, defaultId, fallback, plan);
    ByDaysIsDistinct(plans, fallback);
  }

  lemma {:induction false} GroupIsTheWindows(plans: seq<Plan>, defaultId: PlanId, fallback: int, plan: PlanId, i: nat)
    requires UniqueIds(plans) && Listed(plans, defaultId)
    requires i < |RetentionGroups(plans, defaultId, fallback)|
    ensures var groups := RetentionGroups(plans, defaultId, fallback);
            InGroup(groups, groups[i], plan) <==> groups[i].days == Window(plans, defaultId, fallback, plan)
  {
    CatchAllIsTheDefaults(plans, defaultId, fallback, i);
    ExplicitExactlyWhen(plans, defaultId, fallback, plan);
    if Listed(plans, plan) {
      ListedPlansHaveOneGroup(plans, defaultId, fallback, plan, i);
    } else {
      UnlistedPlansHaveNoGroup(plans, defaultId, fallback, plan, i);
    }
  }

  // ---------------------------------------------------------------------------------------------
  // The deletes
  // ---------------------------------------------------------------------------------------------

  datatype Check = Check(monitor: Monitor, checkedAt: int)

  function Cutoff(now: int, days: int): int {
    now - DAY * days
  }

  /** What one organization's own delete would keep. */
  ghost predicate Keeps(plans: seq<Plan>, defaultId: PlanId, fallback: int, plan: PlanId, checkedAt: int, now: int)
    requires Listed(plans, defaultId)
  {
    checkedAt >= Cutoff(now, Window(plans, defaultId, fallback, plan))
  }

  /** Whether one of the first n deletes covers a check of a plan's organization and finds it too old. */
  ghost predicate Gone(groups: seq<Group>, n: nat, plan: PlanId, checkedAt: int, clock: seq<int>)
    requires n <= |groups| == |clock|
  {
    exists i :: 0 <= i < n && InGroup(groups, groups[i], plan) && checkedAt < Cutoff(clock[i], groups[i].days)
  }

  lemma {:induction false} GoneOneMore(groups: seq<Group>, n: nat, plan: PlanId, checkedAt: int, clock: seq<int>)
    requires n < |groups| == |clock|
    ensures Gone(groups, n + 1, plan, checkedAt, clock) <==>
              Gone(groups, n, plan, checkedAt, clock)
              || (InGroup(groups, groups[n], plan) && checkedAt < Cutoff(clock[n], groups[n].days))
  {}

  /** All the deletes together keep just what the organization's own window keeps when its group's turn comes. */
  lemma {:induction false} DeletesKeepOwnWindow(plans: seq<Plan>, defaultId: PlanId, fallback: int, plan: PlanId,
                                                checkedAt: int,
                                                clock: seq<int>, i: nat)
    requires UniqueIds(plans) && Listed(plans, defaultId)
    requires i < |RetentionGroups(plans, defaultId, fallback)| == |clock|
    requires RetentionGroups(plans, defaultId, fallback)[i].days == Window(plans, defaultId, fallback, plan)
    ensures !Gone(RetentionGroups(plans, defaultId, fallback), |clock|, plan, checkedAt, clock)
            <==> Keeps(plans, defaultId, fallback, plan, checkedAt, clock[i])
  {
    var groups := RetentionGroups(plans, defaultId, fallback);
    GroupIsTheWindows(plans, defaultId, fallback, plan, i);
    forall j | 0 <= j < |groups| && j != i ensures !InGroup(groups, groups[j], plan) {
      GroupIsTheWindows(plans, defaultId, fallback, plan, j);
      if groups[j].days == groups[i].days { OnlyOneGroupHasTheDays(plans, defaultId, fallback, i, j); }
    }
  }

  /**
   * A check is kept exactly while it is younger than the days of the plan its organization subscribes to, or of the
   * default plan when it subscribes to none in the table. A plan without days of its own has the operator's.
   */
  lemma {:induction false} KeptByOwnPlan(plans: seq<Plan>, subscriptions: map<Org, PlanId>, defaultId: PlanId,
                                         fallback: int, org: Org, p: Plan, checkedAt: int, now: int)
    requires UniqueIds(plans) && Listed(plans, defaultId) && p in plans
    requires p.id == if org in subscriptions && exists q :: q in plans && q.id == subscriptions[org]
                     then subscriptions[org] else defaultId
    ensures Keeps(plans, defaultId, fallback, EffectivePlan(subscriptions, defaultId, org), checkedAt, now)
            <==> checkedAt + 86_400_000 * (if p.retentionDays == -1 then fallback else p.retentionDays) >= now
  {
    var plan := EffectivePlan(subscriptions, defaultId, org);
    var i :| 0 <= i < |plans| && plans[i] == p;
    if q :| q in plans && q.id == plan {
      var j :| 0 <= j < |plans| && plans[j] == q;
      assert Listed(plans, plan);
    }
    if Listed(plans, plan) {
      var j :| 0 <= j < |plans| && plans[j].id == plan;
      assert plans[j] in plans;
    }
  }

  lemma {:induction false} SubsetSize<K, V>(a: map<K, V>, b: map<K, V>)
    requires a.Keys <= b.Keys
    ensures |a| <= |b|
  {
    SmallerSet(a.Keys, b.Keys);
    assert |a.Keys| == |a| && |b.Keys| == |b|;
  }

  class StatsService {
    var checks: map<CheckId, Check>
    const monitors: map<Monitor, Org>
    const subscriptions: map<Org, PlanId>

    constructor (checks: map<CheckId, Check>, monitors: map<Monitor, Org>, subscriptions: map<Org, PlanId>)
      ensures this.checks == checks && this.monitors == monitors && this.subscriptions == subscriptions
    {
      this.checks, this.monitors, this.subscriptions := checks, monitors, subscriptions;
    }

    /** Deletes checks older than the cutoff, of the given monitors or of all. */
    method DeleteChecksBefore(cutoff: int, scoped: Option<set<Monitor>>) returns (count: nat)
      modifies this`checks
      ensures forall c :: c in checks <==>
                c in old(checks)
                && (old(checks)[c].checkedAt >= cutoff || (scoped.Some? && old(checks)[c].monitor !in scoped.value))
      ensures forall c :: c in checks ==> checks[c] == old(checks)[c]
      ensures count == |old(checks)| - |checks|
    {
      var kept := map c | c in checks
          && !(checks[c].checkedAt < cutoff && (scoped.None? || checks[c].monitor in scoped.value)) ::
        checks[c];
      SubsetSize(kept, checks);
      count := |checks| - |kept|;
      checks := kept;
    }

    /** The plan that governs a check. */
    function PlanOf(c: Check, defaultId: PlanId): PlanId
      requires c.monitor in monitors
    {
      EffectivePlan(subscriptions, defaultId, monitors[c.monitor])
    }

    /** Some checks of `before` are left, and each as it was. */
    ghost predicate LeftOf(before: map<CheckId, Check>)
      reads this
    {
      && (forall c :: c in checks ==> c in before && checks[c] == before[c])
      && forall c :: c in before ==> before[c].monitor in monitors
    }

    /** The delete of one group. */
    method DeleteGroup(
      groups: seq<Group>, n: nat, defaultId: PlanId, clock: seq<int>, ghost before: map<CheckId, Check>)
      returns (count: nat)
      requires n < |groups| == |clock| && LeftOf(before)
      requires forall c :: c in before ==>
                 (c in checks <==> !Gone(groups, n, PlanOf(before[c], defaultId), before[c].checkedAt, clock))
      modifies this`checks
      ensures count == |old(checks)| - |checks| && LeftOf(before)
      ensures forall c :: c in before ==>
                (c in checks <==> !Gone(groups, n + 1, PlanOf(before[c], defaultId), before[c].checkedAt, clock))
    {
      var scoped := set m | m in monitors
          && InGroup(groups, groups[n], EffectivePlan(subscriptions, defaultId, monitors[m]));
      count := DeleteChecksBefore(Cutoff(clock[n], groups[n].days), Some(scoped));
      forall c | c in before
        ensures c in checks <==> !Gone(groups, n + 1, PlanOf(before[c], defaultId), before[c].checkedAt, clock)
      {
        GoneOneMore(groups, n, PlanOf(before[c], defaultId), before[c].checkedAt, clock);
      }
    }

    /**
     * Runs one delete for each distinct window, the i-th at the time `clock[i]`. Every organization
     * keeps just the checks its own window keeps at the time of its group's delete, and the count is
     * that of the checks gone.
     */
    method CleanupOldChecks(plans: seq<Plan>, defaultId: PlanId, fallback: int, clock: seq<int>) returns (deleted: nat)
      requires UniqueIds(plans) && Listed(plans, defaultId)
      requires |clock| == |RetentionGroups(plans, defaultId, fallback)|
      requires forall c :: c in checks ==> checks[c].monitor in monitors
      modifies this`checks
      ensures deleted == |old(checks)| - |checks| && LeftOf(old(checks))
      ensures forall c, i :: c in old(checks) && 0 <= i < |clock| ==>
                var plan := PlanOf(old(checks)[c], defaultId);
                RetentionGroups(plans, defaultId, fallback)[i].days == Window(plans, defaultId, fallback, plan) ==>
                  (c in checks <==> Keeps(plans, defaultId, fallback, plan, old(checks)[c].checkedAt, clock[i]))
    {
      ghost var before := checks;
      var groups := RetentionGroups(plans, defaultId, fallback);
      deleted := 0;
      for n := 0 to |groups|
        invariant deleted == |before| - |checks| && LeftOf(before)
        invariant forall c :: c in before ==>
                    (c in checks <==> !Gone(groups, n, PlanOf(before[c], defaultId), before[c].checkedAt, clock))
      {
        var count := DeleteGroup(groups, n, defaultId, clock, before);
        deleted := deleted + count;
      }
      forall c, i | c in before && 0 <= i < |clock|
                    && groups[i].days == Window(plans, defaultId, fallback, PlanOf(before[c], defaultId))
        ensures c in checks <==>
                  Keeps(plans, defaultId, fallback, PlanOf(before[c], defaultId), before[c].checkedAt, clock[i])
      {
        DeletesKeepOwnWindow(plans, defaultId, fallback, PlanOf(before[c], defaultId), before[c].checkedAt, clock, i);
      }
    }

    /** A self-hosted instance has no tenants to tell apart: one sweep over every check. */
    method CleanupSelfHosted(fallback: int, now: int) returns (deleted: nat)
      modifies this`checks
      ensures deleted == |old(checks)| - |checks|
      ensures forall c :: c in checks <==> c in old(checks) && old(checks)[c].checkedAt + 86_400_000 * fallback >= now
      ensures forall c :: c in checks ==> checks[c] == old(checks)[c]
    {
      deleted := DeleteChecksBefore(Cutoff(now, fallback), None);
    }
  }
}
