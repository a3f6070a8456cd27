/**
 * Limits on unsolicited email: one an hour to an address, a cap on the addresses that have yet to answer an
 * organization, and a daily ceiling for the whole instance
 * (src/lib/server/services/email-channel.service.ts, mail-reputation.service.ts). Each transaction is one
 * step, at the instant `at` when it holds the ceiling's lock. What it read from clocks earlier is its own.
 */
module SendLimits {
  import opened Prelude

  const HOUR := 3_600_000
  const DAY := 24 * HOUR
  const RESEND_INTERVAL := HOUR
  const PENDING_WINDOW := 7 * DAY
  const INVITATION_SENDS_PER_ADDRESS := 3

  type Organization = nat
  type Address = string

  /** A logged confirmation or invitation email. Which of the two it was, `invited`, the table does not keep. */
  datatype Send = Send(id: nat, organization: Organization, email: Address, sentAt: int, confirmedAt: Option<int>,
                       invited: bool)

  /**
   * A send that counts toward the instance ceiling. Sends for visitors belong to no organization.
   * `sentAt` begins as the start of the transaction that claimed it, and moves to the moment a queued email
   * leaves; `claimedAt`, which the table does not keep, is where it began.
   */
  datatype Unsolicited = Unsolicited(id: nat, organization: Option<Organization>, claimedAt: int, sentAt: int)

  /** `wait` is the longest a transaction waits for its locks. */
  datatype Limits = Limits(cap: nat, ceiling: nat, wait: nat)

  datatype Refusal = TooSoon(retryAt: Option<int>) | Capped | Blocked | Ceiling | Suppressed | OptedOut

  /** Newest send to the address. */
  function LastSent(log: seq<Send>, organization: Organization, email: Address): Option<int> {
    if log == [] then None
    else
      var s := log[|log| - 1];
      var rest := LastSent(log[..|log| - 1], organization, email);
      if s.organization != organization || s.email != email then rest
      else if rest.None? || rest.value < s.sentAt then Some(s.sentAt)
      else rest
  }

  /** An unconfirmed send of the pending window at `at`. */
  predicate Pending(s: Send, organization: Organization, at: int) {
    s.organization == organization && s.sentAt > at - PENDING_WINDOW && s.confirmedAt.None?
  }

  function UnconfirmedAddresses(log: seq<Send>, organization: Organization, at: int): set<Address> {
    set i | 0 <= i < |log| && Pending(log[i], organization, at) :: log[i].email
  }

  function UnansweredSends(log: seq<Send>, organization: Organization, email: Address, at: int): nat {
    if log == [] then 0
    else
      var s := log[|log| - 1];
      UnansweredSends(log[..|log| - 1], organization, email, at)
      + if Pending(s, organization, at) && s.email == email then 1 else 0
  }

  /** Counted sends after `from`. */
  function SentSince(mail: seq<Unsolicited>, from: int, visitorsOnly: bool): nat {
    if mail == [] then 0
    else
      var m := mail[|mail| - 1];
      SentSince(mail[..|mail| - 1], from, visitorsOnly)
      + if m.sentAt > from && (visitorsOnly ==> m.organization.None?) then 1 else 0
  }

  /** Whether one send more would pass the day's ceiling, or a visitor's their half of it. There may be none. */
  predicate OverCeiling(mail: seq<Unsolicited>, ceiling: nat, visitor: bool, at: int) {
    && ceiling > 0
    && (|| SentSince(mail, at - DAY, false) >= ceiling
        || (visitor && SentSince(mail, at - DAY, true) * 2 >= ceiling))
  }

  /**
   * The tables. `blocked` organizations and `suppressed` addresses are kept by provider events, and
   * `optedOut` by the addresses themselves.
   */
  datatype State = State(log: seq<Send>, mail: seq<Unsolicited>, blocked: set<Organization>,
                         suppressed: set<Address>, optedOut: set<(Organization, Address)>, clock: int)

  /** Why a claim is refused: `now` was read before the organization's lock, `at` under the ceiling's. */
  function SlotRefusal(limits: Limits, s: State, organization: Organization, email: Address, now: int, at: int)
    : Option<Refusal>
  {
    var last := LastSent(s.log, organization, email);
    if last.Some? && now < last.value + RESEND_INTERVAL then Some(TooSoon(Some(last.value + RESEND_INTERVAL)))
    else if |UnconfirmedAddresses(s.log, organization, now)| >= limits.cap then Some(Capped)
    else GuardRefusal(limits, s, organization, email, false, at)
  }

  /** An invitation goes to no address that opted out, and to none that has left enough of them unanswered. */
  function InvitationRefusal(limits: Limits, s: State, organization: Organization, email: Address, now: int, at: int)
    : Option<Refusal>
  {
    if (organization, email) in s.optedOut then Some(OptedOut)
    else if UnansweredSends(s.log, organization, email, now) >= INVITATION_SENDS_PER_ADDRESS then Some(TooSoon(None))
    else SlotRefusal(limits, s, organization, email, now, at)
  }

  function GuardRefusal(limits: Limits, s: State, organization: Organization, email: Address, visitor: bool, at: int)
    : Option<Refusal>
  {
    if organization in s.blocked then Some(Blocked)
    else if OverCeiling(s.mail, limits.ceiling, visitor, at) then Some(Ceiling)
    else if email in s.suppressed then Some(Suppressed)
    else None
  }

  function WithoutSend(log: seq<Send>, id: nat): seq<Send> {
    if log == [] then []
    else
      var rest, s := WithoutSend(log[..|log| - 1], id), log[|log| - 1];
      if s.id == id then rest else rest + [s]
  }

  function WithoutMail(mail: seq<Unsolicited>, id: nat): seq<Unsolicited> {
    if mail == [] then []
    else
      var rest, m := WithoutMail(mail[..|mail| - 1], id), mail[|mail| - 1];
      if m.id == id then rest else rest + [m]
  }

  function Freed(log: seq<Send>, organization: Organization, email: Address, now: int): seq<Send> {
    seq(|log|, i requires 0 <= i < |log| =>
      if log[i].organization == organization && log[i].email == email && log[i].confirmedAt.None? then
        log[i].(confirmedAt := Some(now))
      else log[i])
  }

  function Stamped(mail: seq<Unsolicited>, id: nat, at: int): seq<Unsolicited> {
    seq(|mail|, i requires 0 <= i < |mail| => if mail[i].id == id then mail[i].(sentAt := at) else mail[i])
  }

  // ---------------------------------------------------------------------------------------------
  // Every order of transactions
  // ---------------------------------------------------------------------------------------------

  /**
   * `Claim` stands for confirmations. `Visit` is a visitor's subscription to a status page. `Release`
   * undoes a failed send in both tables. `PruneLog` and `PruneMail` each take a send from one
   * table. `Stamp` marks a queued one leaving, and `Answer` frees an address's slots. A transaction begins at
   * `begun`, after `now` was read.
   */
  datatype Step =
    | Claim(id: nat, organization: Organization, email: Address, now: int, begun: int, at: int)
    | Invite(id: nat, organization: Organization, email: Address, now: int, begun: int, at: int)
    | Visit(id: nat, organization: Organization, email: Address, begun: int, at: int)
    | Release(id: nat)
    | PruneLog(id: nat)
    | PruneMail(id: nat)
    | Stamp(id: nat, at: int)
    | Answer(organization: Organization, email: Address, now: int)
    | Provider(blocked: set<Organization>, suppressed: set<Address>)
    | Consents(optedOut: set<(Organization, Address)>)

  /** The clock moves forward, and a transaction's earlier readings are not ahead of it. */
  predicate Enabled(limits: Limits, s: State, step: Step) {
    match step
    case Claim(_, _, _, now, begun, at) => now <= begun <= at <= begun + limits.wait && s.clock <= at
    case Invite(_, _, _, now, begun, at) => now <= begun <= at <= begun + limits.wait && s.clock <= at
    case Visit(_, _, _, begun, at) => begun <= at <= begun + limits.wait && s.clock <= at
    case Stamp(_, at) => s.clock <= at
    case _ => true
  }

  function WithSend(s: State, id: nat, organization: Organization, email: Address, now: int, begun: int, at: int,
                    invited: bool): State
  {
    s.(log := s.log + [Send(id, organization, email, now, None, invited)],
       mail := s.mail + [Unsolicited(id, Some(organization), begun, begun)],
       clock := at)
  }

  function Next(limits: Limits, s: State, step: Step): State {
    if !Enabled(limits, s, step) then s
    else match step
      case Claim(id, organization, email, now, begun, at) =>
        if SlotRefusal(limits, s, organization, email, now, at).Some? then s.(clock := at)
        else WithSend(s, id, organization, email, now, begun, at, false)
      case Invite(id, organization, email, now, begun, at) =>
        if InvitationRefusal(limits, s, organization, email, now, at).Some? then s.(clock := at)
        else WithSend(s, id, organization, email, now, begun, at, true)
      case Visit(id, organization, email, begun, at) =>
        if GuardRefusal(limits, s, organization, email, true, at).Some? then s.(clock := at)
        else s.(mail := s.mail + [Unsolicited(id, None, begun, begun)], clock := at)
      case Release(id) => s.(log := WithoutSend(s.log, id), mail := WithoutMail(s.mail, id))
      case PruneLog(id) => s.(log := WithoutSend(s.log, id))
      case PruneMail(id) => s.(mail := WithoutMail(s.mail, id))
      case Stamp(id, at) => s.(mail := Stamped(s.mail, id, at), clock := at)
      case Answer(organization, email, now) => s.(log := Freed(s.log, organization, email, now))
      case Provider(blocked, suppressed) => s.(blocked := blocked, suppressed := suppressed)
      case Consents(optedOut) => s.(optedOut := optedOut)
  }

  const INITIAL := State([], [], {}, {}, {}, 0)

  function Run(limits: Limits, steps: seq<Step>): State {
    if steps == [] then INITIAL else Next(limits, Run(limits, steps[..|steps| - 1]), steps[|steps| - 1])
  }

  // ---------------------------------------------------------------------------------------------
  // The invariant
  // ---------------------------------------------------------------------------------------------

  /** Counted sends claimed after `from`, up to `to`. */
  function ClaimedIn(mail: seq<Unsolicited>, from: int, to: int, visitorsOnly: bool): nat {
    if mail == [] then 0
    else
      var m := mail[|mail| - 1];
      ClaimedIn(mail[..|mail| - 1], from, to, visitorsOnly)
      + if from < m.claimedAt <= to && (visitorsOnly ==> m.organization.None?) then 1 else 0
  }

  ghost predicate HourApart(log: seq<Send>) {
    forall i, j :: 0 <= i < j < |log| && log[i].organization == log[j].organization && log[i].email == log[j].email
      ==> log[j].sentAt >= log[i].sentAt + RESEND_INTERVAL
  }

  ghost predicate UnderCap(limits: Limits, log: seq<Send>, organization: Organization, at: int) {
    |UnconfirmedAddresses(log, organization, at)| <= limits.cap
  }

  ghost predicate UnderCeiling(limits: Limits, mail: seq<Unsolicited>, from: int) {
    limits.ceiling > 0 ==>
      && ClaimedIn(mail, from, from + DAY - limits.wait, false) <= limits.ceiling
      && ClaimedIn(mail, from, from + DAY - limits.wait, true) <= (limits.ceiling + 1) / 2
  }

  ghost predicate TimesOk(mail: seq<Unsolicited>, clock: int) {
    forall i :: 0 <= i < |mail| ==> mail[i].claimedAt <= mail[i].sentAt && mail[i].claimedAt <= clock
  }

  ghost predicate Inv(limits: Limits, s: State) {
    && HourApart(s.log)
    && (forall organization, at :: at >= s.clock ==> UnderCap(limits, s.log, organization, at))
    && (forall from :: UnderCeiling(limits, s.mail, from))
    && TimesOk(s.mail, s.clock)
  }

  lemma {:induction false} LastSentIsNewest(log: seq<Send>, organization: Organization, email: Address)
    ensures var last := LastSent(log, organization, email);
            forall i :: 0 <= i < |log| && log[i].organization == organization && log[i].email == email ==>
              last.Some? && log[i].sentAt <= last.value
  {
    if log != [] {
      LastSentIsNewest(log[..|log| - 1], organization, email);
    }
  }

  lemma {:induction false} SlotTaken(limits: Limits, s: State, id: nat, organization: Organization, email: Address,
                                     now: int, begun: int, at: int, invited: bool)
    requires Inv(limits, s) && now <= begun <= at <= begun + limits.wait && s.clock <= at
    requires SlotRefusal(limits, s, organization, email, now, at).None?
    ensures Inv(limits, WithSend(s, id, organization, email, now, begun, at, invited))
  {
    var t := WithSend(s, id, organization, email, now, begun, at, invited);
    LastSentIsNewest(s.log, organization, email);
    forall o, later | later >= at ensures UnderCap(limits, t.log, o, later) {
      var after := UnconfirmedAddresses(t.log, o, later);
      if o == organization {
        var before := UnconfirmedAddresses(s.log, o, now);
        assert after <= before + {email};
        SmallerSet(after, before + {email});
      } else {
        assert after <= UnconfirmedAddresses(s.log, o, later);
        SmallerSet(after, UnconfirmedAddresses(s.log, o, later));
        assert UnderCap(limits, s.log, o, later);
      }
    }
    MailCounted(limits, s, Unsolicited(id, Some(organization), begun, begun), at);
  }

  lemma {:induction false} ClaimedAreCounted(mail: seq<Unsolicited>, from: int, to: int, since: int, visitorsOnly: bool)
    requires since <= from
    requires forall i :: 0 <= i < |mail| ==> mail[i].claimedAt <= mail[i].sentAt
    ensures ClaimedIn(mail, from, to, visitorsOnly) <= SentSince(mail, since, visitorsOnly)
  {
    if mail != [] {
      ClaimedAreCounted(mail[..|mail| - 1], from, to, since, visitorsOnly);
    }
  }

  /** A send that passed the ceiling keeps every such window under it. */
  lemma {:induction false} MailCounted(limits: Limits, s: State, m: Unsolicited, at: int)
    requires Inv(limits, s) && s.clock <= at && m.claimedAt == m.sentAt <= at <= m.claimedAt + limits.wait
    requires !OverCeiling(s.mail, limits.ceiling, m.organization.None?, at)
    ensures forall from :: UnderCeiling(limits, s.mail + [m], from)
  {
    forall from ensures UnderCeiling(limits, s.mail + [m], from) {
      assert (s.mail + [m])[..|s.mail|] == s.mail;
      assert UnderCeiling(limits, s.mail, from);
      var to := from + DAY - limits.wait;
      if from < m.claimedAt <= to {
        ClaimedAreCounted(s.mail, from, to, at - DAY, false);
        ClaimedAreCounted(s.mail, from, to, at - DAY, true);
      }
    }
  }

  lemma {:induction false} WithoutSendKeeps(log: seq<Send>, id: nat)
    requires HourApart(log)
    ensures HourApart(WithoutSend(log, id))
    ensures forall s :: s in WithoutSend(log, id) ==> s in log
  {
    if log != [] {
      var rest, last := WithoutSend(log[..|log| - 1], id), log[|log| - 1];
      WithoutSendKeeps(log[..|log| - 1], id);
      forall i | 0 <= i < |rest| && rest[i].organization == last.organization && rest[i].email == last.email
        ensures last.sentAt >= rest[i].sentAt + RESEND_INTERVAL
      {
        assert rest[i] in log[..|log| - 1];
      }
    }
  }

  lemma {:induction false} WithoutSendShrinks(limits: Limits, log: seq<Send>, id: nat, organization: Organization,
                                              at: int)
    requires HourApart(log) && UnderCap(limits, log, organization, at)
    ensures UnderCap(limits, WithoutSend(log, id), organization, at)
  {
    WithoutSendKeeps(log, id);
    var r := WithoutSend(log, id);
    forall email | email in UnconfirmedAddresses(r, organization, at)
      ensures email in UnconfirmedAddresses(log, organization, at)
    {
      var i :| 0 <= i < |r| && Pending(r[i], organization, at) && r[i].email == email;
      assert r[i] in log;
    }
    SmallerSet(UnconfirmedAddresses(r, organization, at), UnconfirmedAddresses(log, organization, at));
  }

  lemma {:induction false} WithoutMailShrinks(mail: seq<Unsolicited>, id: nat, from: int, to: int, visitorsOnly: bool)
    ensures ClaimedIn(WithoutMail(mail, id), from, to, visitorsOnly) <= ClaimedIn(mail, from, to, visitorsOnly)
  {
    if mail != [] {
      WithoutMailShrinks(mail[..|mail| - 1], id, from, to, visitorsOnly);
    }
  }

  lemma {:induction false} WithoutMailKeepsTimes(mail: seq<Unsolicited>, id: nat, clock: int)
    requires TimesOk(mail, clock)
    ensures TimesOk(WithoutMail(mail, id), clock)
  {
    if mail != [] {
      WithoutMailKeepsTimes(mail[..|mail| - 1], id, clock);
    }
  }

  lemma {:induction false} WithoutMailStaysUnder(limits: Limits, mail: seq<Unsolicited>, id: nat, from: int)
    requires UnderCeiling(limits, mail, from)
    ensures UnderCeiling(limits, WithoutMail(mail, id), from)
  {
    WithoutMailShrinks(mail, id, from, from + DAY - limits.wait, false);
    WithoutMailShrinks(mail, id, from, from + DAY - limits.wait, true);
  }

  lemma {:induction false} PrunedLogKeepsInv(limits: Limits, s: State, id: nat)
    requires Inv(limits, s)
    ensures Inv(limits, s.(log := WithoutSend(s.log, id)))
  {
    WithoutSendKeeps(s.log, id);
    forall organization, at | at >= s.clock ensures UnderCap(limits, WithoutSend(s.log, id), organization, at) {
      WithoutSendShrinks(limits, s.log, id, organization, at);
    }
  }

  lemma {:induction false} PrunedMailKeepsInv(limits: Limits, s: State, id: nat)
    requires Inv(limits, s)
    ensures Inv(limits, s.(mail := WithoutMail(s.mail, id)))
  {
    WithoutMailKeepsTimes(s.mail, id, s.clock);
    forall from ensures UnderCeiling(limits, WithoutMail(s.mail, id), from) {
      WithoutMailStaysUnder(limits, s.mail, id, from);
    }
  }

  lemma {:induction false} StampKeepsClaims(mail: seq<Unsolicited>, id: nat, at: int, from: int, to: int,
                                            visitorsOnly: bool)
    ensures ClaimedIn(Stamped(mail, id, at), from, to, visitorsOnly) == ClaimedIn(mail, from, to, visitorsOnly)
  {
    if mail != [] {
      assert Stamped(mail, id, at)[..|mail| - 1] == Stamped(mail[..|mail| - 1], id, at);
      StampKeepsClaims(mail[..|mail| - 1], id, at, from, to, visitorsOnly);
    }
  }

  lemma {:induction false} FreedKeepsInv(limits: Limits, s: State, organization: Organization, email: Address, now: int)
    requires Inv(limits, s)
    ensures Inv(limits, s.(log := Freed(s.log, organization, email, now)))
  {
    var r := Freed(s.log, organization, email, now);
    forall o, at | at >= s.clock ensures UnderCap(limits, r, o, at) {
      forall e | e in UnconfirmedAddresses(r, o, at) ensures e in UnconfirmedAddresses(s.log, o, at) {
        var i :| 0 <= i < |r| && Pending(r[i], o, at) && r[i].email == e;
        assert Pending(s.log[i], o, at);
      }
      SmallerSet(UnconfirmedAddresses(r, o, at), UnconfirmedAddresses(s.log, o, at));
      assert UnderCap(limits, s.log, o, at);
    }
  }

  lemma {:induction false} StepKeepsInv(limits: Limits, s: State, step: Step)
    requires Inv(limits, s)
    ensures Inv(limits, Next(limits, s, step))
  {
    if Enabled(limits, s, step) {
      match step {
        case Claim(id, organization, email, now, begun, at) =>
          if SlotRefusal(limits, s, organization, email, now, at).None? {
            SlotTaken(limits, s, id, organization, email, now, begun, at, false);
          }
        case Invite(id, organization, email, now, begun, at) =>
          if InvitationRefusal(limits, s, organization, email, now, at).None? {
            SlotTaken(limits, s, id, organization, email, now, begun, at, true);
          }
        case Visit(id, organization, email, begun, at) =>
          if GuardRefusal(limits, s, organization, email, true, at).None? {
            MailCounted(limits, s, Unsolicited(id, None, begun, begun), at);
          }
        case Release(id) =>
          PrunedLogKeepsInv(limits, s, id);
          PrunedMailKeepsInv(limits, s.(log := WithoutSend(s.log, id)), id);
        case PruneLog(id) => PrunedLogKeepsInv(limits, s, id);
        case PruneMail(id) => PrunedMailKeepsInv(limits, s, id);
        case Stamp(id, at) =>
          forall from ensures UnderCeiling(limits, Stamped(s.mail, id, at), from) {
            StampKeepsClaims(s.mail, id, at, from, from + DAY - limits.wait, false);
            StampKeepsClaims(s.mail, id, at, from, from + DAY - limits.wait, true);
            assert UnderCeiling(limits, s.mail, from);
          }
        case Answer(organization, email, now) => FreedKeepsInv(limits, s, organization, email, now);
        case _ =>
      }
    }
  }

  lemma {:induction false} RunsAreSound(limits: Limits, steps: seq<Step>)
    ensures Inv(limits, Run(limits, steps))
  {
    if steps != [] {
      RunsAreSound(limits, steps[..|steps| - 1]);
      StepKeepsInv(limits, Run(limits, steps[..|steps| - 1]), steps[|steps| - 1]);
    } else {
      forall organization, at ensures UnderCap(limits, [], organization, at) {
        assert UnconfirmedAddresses([], organization, at) == {};
      }
    }
  }

  // ---------------------------------------------------------------------------------------------
  // What holds in every reachable state
  // ---------------------------------------------------------------------------------------------

  /** No address hears from an organization twice within an hour. */
  lemma {:induction false} SendsAreAnHourApart(limits: Limits, steps: seq<Step>, i: nat, j: nat)
    requires var log := Run(limits, steps).log;
             && i < j < |log| && log[i].organization == log[j].organization && log[i].email == log[j].email
    ensures Run(limits, steps).log[j].sentAt >= Run(limits, steps).log[i].sentAt + RESEND_INTERVAL
  {
    RunsAreSound(limits, steps);
  }

  /** From now on, until something else happens, no more addresses than the cap are waiting to answer. */
  lemma {:induction false} UnansweredAddressesAreCapped(limits: Limits, steps: seq<Step>, organization: Organization,
                                                        at: int)
    requires at >= Run(limits, steps).clock
    ensures |UnconfirmedAddresses(Run(limits, steps).log, organization, at)| <= limits.cap
  {
    RunsAreSound(limits, steps);
    assert UnderCap(limits, Run(limits, steps).log, organization, at);
  }

  /**
   * No 24 hours, less the longest wait for a lock, hold more sends than the ceiling, nor more for visitors
   * than half of it, rounded up. The row carries its transaction's start, which the wait puts before the count.
   */
  lemma {:induction false} DaysStayUnderTheCeiling(limits: Limits, steps: seq<Step>, from: int)
    requires limits.ceiling > 0
    ensures ClaimedIn(Run(limits, steps).mail, from, from + DAY - limits.wait, false) <= limits.ceiling
    ensures ClaimedIn(Run(limits, steps).mail, from, from + DAY - limits.wait, true) <= (limits.ceiling + 1) / 2
  {
    RunsAreSound(limits, steps);
    assert UnderCeiling(limits, Run(limits, steps).mail, from);
  }

  lemma {:induction false} Extend(limits: Limits, steps: seq<Step>, s: State, step: Step)
    returns (more: seq<Step>, t: State)
    requires s == Run(limits, steps)
    ensures more == steps + [step] && t == Next(limits, s, step) == Run(limits, more)
  {
    more, t := steps + [step], Next(limits, s, step);
    assert more[..|steps|] == steps;
  }

  lemma {:induction false} TwoIn(a: Unsolicited, b: Unsolicited, from: int, to: int)
    requires from < a.claimedAt <= to && from < b.claimedAt <= to
    ensures ClaimedIn([a, b], from, to, false) == 2
  {
    assert [a, b][..1] == [a] && [a][..0] == [];
    assert ClaimedIn([a], from, to, false) == 1;
  }

  lemma {:induction false} NoneSince(a: Unsolicited, from: int)
    requires a.sentAt <= from
    ensures SentSince([a], from, false) == 0 && SentSince([a], from, true) == 0
  {
    assert [a][..0] == [];
  }

  /** And no longer window stays under it: with any wait at all, one millisecond more can hold twice the ceiling. */
  lemma {:induction false} LongerWindowsDoNot(wait: nat) returns (limits: Limits, steps: seq<Step>, from: int)
    requires 0 < wait < DAY
    ensures limits.wait == wait && limits.ceiling == 1
    ensures ClaimedIn(Run(limits, steps).mail, from, from + DAY - wait + 1, false) == 2
  {
    limits, from := Limits(1, 1, wait), -1;
    var a, b := Unsolicited(0, None, 0, 0), Unsolicited(1, None, DAY - wait, DAY - wait);
    var s := INITIAL;
    steps := [];
    steps, s := Extend(limits, steps, s, Visit(0, 0, "a", 0, 0));
    assert s.mail == [a];
    NoneSince(a, 0);
    steps, s := Extend(limits, steps, s, Visit(1, 0, "b", DAY - wait, DAY));
    assert s.mail == [a, b];
    TwoIn(a, b, from, from + DAY - wait + 1);
  }

  /** Invitations logged to an organization's address. */
  function Invitations(log: seq<Send>, organization: Organization, email: Address): nat {
    if log == [] then 0
    else
      var m := log[|log| - 1];
      Invitations(log[..|log| - 1], organization, email)
      + if m.invited && m.organization == organization && m.email == email then 1 else 0
  }

  predicate OptedOutThroughout(limits: Limits, steps: seq<Step>, more: seq<Step>, organization: Organization,
                               email: Address)
  {
    && (organization, email) in Run(limits, steps + more).optedOut
    && (more != [] ==> OptedOutThroughout(limits, steps, more[..|more| - 1], organization, email))
  }

  lemma {:induction false} FewerInvitations(log: seq<Send>, id: nat, organization: Organization, email: Address)
    ensures Invitations(WithoutSend(log, id), organization, email) <= Invitations(log, organization, email)
  {
    if log != [] { FewerInvitations(log[..|log| - 1], id, organization, email); }
  }

  /** While an address is opted out of an organization's email, no invitation to it is logged, whatever else happens. */
  lemma {:induction false} NoInvitationsWhileOptedOut(limits: Limits, steps: seq<Step>, more: seq<Step>,
                                                      organization: Organization, email: Address)
    requires OptedOutThroughout(limits, steps, more, organization, email)
    ensures Invitations(Run(limits, steps + more).log, organization, email)
            <= Invitations(Run(limits, steps).log, organization, email)
  {
    if more == [] {
      assert steps + more == steps;
    } else {
      var n := |more| - 1;
      NoInvitationsWhileOptedOut(limits, steps, more[..n], organization, email);
      assert (steps + more)[..|steps| + n] == steps + more[..n];
      InvitationsStep(limits, Run(limits, steps + more[..n]), more[n], organization, email);
    }
  }

  lemma {:induction false} InvitationsStep(limits: Limits, s: State, step: Step, organization: Organization,
                                           email: Address)
    requires (organization, email) in s.optedOut
    ensures Invitations(Next(limits, s, step).log, organization, email) <= Invitations(s.log, organization, email)
  {
    var t := Next(limits, s, step);
    if step.Release? || step.PruneLog? {
      FewerInvitations(s.log, step.id, organization, email);
    } else if step.Answer? {
      FreedInvitations(s.log, step.organization, step.email, step.now, organization, email);
    } else if |t.log| > |s.log| {
      assert t.log[..|s.log|] == s.log;
    }
  }

  lemma {:induction false} FreedInvitations(log: seq<Send>, o: Organization, e: Address, now: int,
                                            organization: Organization, email: Address)
    ensures Invitations(Freed(log, o, e, now), organization, email) == Invitations(log, organization, email)
  {
    if log != [] {
      FreedInvitations(log[..|log| - 1], o, e, now, organization, email);
      assert Freed(log, o, e, now)[..|log| - 1] == Freed(log[..|log| - 1], o, e, now);
    }
  }

  // ---------------------------------------------------------------------------------------------
  // What each request comes to, told by the tables alone
  // ---------------------------------------------------------------------------------------------

  /** The organization wrote to the address within the hour before `now`. */
  ghost predicate WroteWithinTheHour(log: seq<Send>, organization: Organization, email: Address, now: int) {
    exists i :: 0 <= i < |log| && log[i].organization == organization && log[i].email == email
                && now < log[i].sentAt + 3_600_000
  }

  /** The send is an unanswered one of the last seven days. */
  ghost predicate Unanswered(m: Send, organization: Organization, now: int) {
    m.organization == organization && m.confirmedAt == None && now < m.sentAt + 7 * 86_400_000
  }

  ghost function Waiting(log: seq<Send>, organization: Organization, now: int): set<Address> {
    set i | 0 <= i < |log| && Unanswered(log[i], organization, now) :: log[i].email
  }

  /** The instance sent its ceiling in the last day, or its visitors half of it. */
  ghost predicate DayIsFull(mail: seq<Unsolicited>, ceiling: nat, visitor: bool, at: int) {
    && ceiling > 0
    && (|| |set i | 0 <= i < |mail| && at < mail[i].sentAt + 86_400_000| >= ceiling
        || (visitor
            && 2 * |set i | 0 <= i < |mail| && at < mail[i].sentAt + 86_400_000 && mail[i].organization == None|
               >= ceiling))
  }

  lemma {:induction false} SentPlaces(mail: seq<Unsolicited>, from: int, visitors: bool, p: Unsolicited -> bool)
    requires forall m :: p(m) <==> m.sentAt > from && (visitors ==> m.organization == None)
    ensures SentSince(mail, from, visitors) == |Places(mail, p)|
  {
    if mail != [] {
      SentPlaces(mail[..|mail| - 1], from, visitors, p);
      PlacesGrow(mail, p);
    }
  }

  lemma {:induction false} OverCeilingIsFull(mail: seq<Unsolicited>, ceiling: nat, visitor: bool, at: int)
    ensures OverCeiling(mail, ceiling, visitor, at) <==> DayIsFull(mail, ceiling, visitor, at)
  {
    var any := (m: Unsolicited) => m.sentAt > at - DAY;
    var own := (m: Unsolicited) => m.sentAt > at - DAY && m.organization == None;
    SentPlaces(mail, at - DAY, false, any);
    SentPlaces(mail, at - DAY, true, own);
    assert Places(mail, any) == set i | 0 <= i < |mail| && at < mail[i].sentAt + 86_400_000;
    assert Places(mail, own)
        == set i | 0 <= i < |mail| && at < mail[i].sentAt + 86_400_000 && mail[i].organization == None;
  }

  lemma {:induction false} LastSentIsOne(log: seq<Send>, organization: Organization, email: Address)
    ensures var last := LastSent(log, organization, email);
            && (last.Some? ==> exists i :: 0 <= i < |log| && log[i].organization == organization
                                           && log[i].email == email && log[i].sentAt == last.value)
            && (forall i :: 0 <= i < |log| && log[i].organization == organization && log[i].email == email ==>
                  last.Some? && log[i].sentAt <= last.value)
  {
    LastSentIsNewest(log, organization, email);
    if log != [] {
      var n := |log| - 1;
      LastSentIsOne(log[..n], organization, email);
      var last, rest := LastSent(log, organization, email), LastSent(log[..n], organization, email);
      if last.Some? && last == rest {
        var i :| 0 <= i < n && log[..n][i].organization == organization && log[..n][i].email == email
                 && log[..n][i].sentAt == last.value;
        assert log[i] == log[..n][i];
      }
    }
  }

  /** The refusals in their order, or none. A send may be tried again an hour after the newest to the address. */
  ghost predicate RefusedSo(limits: Limits, s: State, organization: Organization, email: Address, now: int, at: int,
                            refused: Option<Refusal>)
  {
    var soon := WroteWithinTheHour(s.log, organization, email, now);
    var full := |Waiting(s.log, organization, now)| >= limits.cap;
    match refused
    case Some(TooSoon(retryAt)) =>
      && soon && retryAt.Some?
      && (forall m :: m in s.log && m.organization == organization && m.email == email ==>
            m.sentAt + 3_600_000 <= retryAt.value)
      && (exists m :: m in s.log && m.organization == organization && m.email == email
                      && m.sentAt + 3_600_000 == retryAt.value)
    case Some(Capped) => !soon && full
    case Some(Blocked) => !soon && !full && organization in s.blocked
    case Some(Ceiling) =>
      !soon && !full && organization !in s.blocked && DayIsFull(s.mail, limits.ceiling, false, at)
    case Some(Suppressed) =>
      && !soon && !full && organization !in s.blocked && !DayIsFull(s.mail, limits.ceiling, false, at)
      && email in s.suppressed
    case Some(OptedOut) => false
    case None =>
      && !soon && !full && organization !in s.blocked && !DayIsFull(s.mail, limits.ceiling, false, at)
      && email !in s.suppressed
  }

  /** A confirmation is refused for the first cause that applies: the hour, the cap, a block, the ceiling, a bounce. */
  lemma {:induction false} RefusalsHaveTheirCause(limits: Limits, s: State, organization: Organization, email: Address,
                                                  now: int, at: int)
    ensures RefusedSo(limits, s, organization, email, now, at, SlotRefusal(limits, s, organization, email, now, at))
  {
    LastSentIsOne(s.log, organization, email);
    OverCeilingIsFull(s.mail, limits.ceiling, false, at);
    assert Waiting(s.log, organization, now) == UnconfirmedAddresses(s.log, organization, now);
    var last := LastSent(s.log, organization, email);
    if last.Some? {
      var i :| 0 <= i < |s.log| && s.log[i].organization == organization && s.log[i].email == email
               && s.log[i].sentAt == last.value;
      assert s.log[i] in s.log;
    }
  }

  lemma {:induction false} UnansweredPlaces(log: seq<Send>, organization: Organization, email: Address, now: int,
                                            p: Send -> bool)
    requires forall m :: p(m) <==> Unanswered(m, organization, now) && m.email == email
    ensures UnansweredSends(log, organization, email, now) == |Places(log, p)|
  {
    if log != [] {
      UnansweredPlaces(log[..|log| - 1], organization, email, now, p);
      PlacesGrow(log, p);
    }
  }

  lemma {:induction false} UnansweredSendsCount(log: seq<Send>, organization: Organization, email: Address, now: int)
    ensures UnansweredSends(log, organization, email, now)
            == |set i | 0 <= i < |log| && Unanswered(log[i], organization, now) && log[i].email == email|
  {
    ghost var p := (m: Send) => Unanswered(m, organization, now) && m.email == email;
    UnansweredPlaces(log, organization, email, now, p);
    assert Places(log, p)
        == set i | 0 <= i < |log| && Unanswered(log[i], organization, now) && log[i].email == email;
  }

  /** An invitation is refused besides when the address opted out, or three emails to it wait for an answer. */
  lemma {:induction false} InvitationsAreRefusedWhen(limits: Limits, s: State, organization: Organization,
                                                     email: Address, now: int, at: int)
    ensures var refused := InvitationRefusal(limits, s, organization, email, now, at);
            var three := |set i | 0 <= i < |s.log| && Unanswered(s.log[i], organization, now)
                                  && s.log[i].email == email| >= 3;
            && (refused == Some(OptedOut) <==> (organization, email) in s.optedOut)
            && (refused == Some(TooSoon(None)) <==> (organization, email) !in s.optedOut && three)
            && ((organization, email) !in s.optedOut && !three ==>
                  RefusedSo(limits, s, organization, email, now, at, refused))
  {
    UnansweredSendsCount(s.log, organization, email, now);
    RefusalsHaveTheirCause(limits, s, organization, email, now, at);
  }

  /** A visitor's email is refused by the guard alone, which leaves visitors half the ceiling. */
  lemma {:induction false} VisitorsAreRefusedWhen(limits: Limits, s: State, organization: Organization, email: Address,
                                                  at: int)
    ensures var refused := GuardRefusal(limits, s, organization, email, true, at);
            && (refused == Some(Blocked) <==> organization in s.blocked)
            && (refused == Some(Ceiling) <==>
                  organization !in s.blocked && DayIsFull(s.mail, limits.ceiling, true, at))
            && (refused == Some(Suppressed) <==>
                  && organization !in s.blocked && !DayIsFull(s.mail, limits.ceiling, true, at)
                  && email in s.suppressed)
            && (refused.None? <==>
                  && organization !in s.blocked && !DayIsFull(s.mail, limits.ceiling, true, at)
                  && email !in s.suppressed)
  {
    OverCeilingIsFull(s.mail, limits.ceiling, true, at);
  }

  /** What was not refused is in both tables, a visitor's in one, and what was refused is in neither. */
  lemma {:induction false} RequestsAreLogged(limits: Limits, s: State, step: Step)
    requires step.Claim? || step.Invite? || step.Visit?
    requires step.begun <= step.at <= step.begun + limits.wait && s.clock <= step.at
    requires !step.Visit? ==> step.now <= step.begun
    ensures var t := Next(limits, s, step);
            var refused := match step
              case Claim(_, organization, email, now, _, at) => SlotRefusal(limits, s, organization, email, now, at)
              case Invite(_, organization, email, now, _, at) =>
                InvitationRefusal(limits, s, organization, email, now, at)
              case _ => GuardRefusal(limits, s, step.organization, step.email, true, step.at);
            && t.clock == step.at
            && t.blocked == s.blocked && t.suppressed == s.suppressed && t.optedOut == s.optedOut
            && t.log == s.log + (if refused.Some? || step.Visit? then []
                                 else [Send(step.id, step.organization, step.email, step.now, None, step.Invite?)])
            && t.mail == s.mail + (if refused.Some? then []
                                   else [Unsolicited(step.id, if step.Visit? then None else Some(step.organization),
                                                     step.begun, step.begun)])
  {}

  lemma {:induction false} WithoutSendCounts(log: seq<Send>, id: nat, m: Send)
    ensures multiset(WithoutSend(log, id))[m] == if m.id == id then 0 else multiset(log)[m]
  {
    if log != [] {
      WithoutSendCounts(log[..|log| - 1], id, m);
      assert log == log[..|log| - 1] + [log[|log| - 1]];
    }
  }

  lemma {:induction false} WithoutMailCounts(mail: seq<Unsolicited>, id: nat, m: Unsolicited)
    ensures multiset(WithoutMail(mail, id))[m] == if m.id == id then 0 else multiset(mail)[m]
  {
    if mail != [] {
      WithoutMailCounts(mail[..|mail| - 1], id, m);
      assert mail == mail[..|mail| - 1] + [mail[|mail| - 1]];
    }
  }

  /** A release takes the send out of both tables, and nothing else out of either. */
  lemma {:induction false} ReleasesTakeOne(limits: Limits, s: State, id: nat)
    ensures var t := Next(limits, s, Release(id));
            && t == s.(log := t.log, mail := t.mail)
            && (forall m :: multiset(t.log)[m] == if m.id == id then 0 else multiset(s.log)[m])
            && (forall m :: multiset(t.mail)[m] == if m.id == id then 0 else multiset(s.mail)[m])
  {
    forall m ensures multiset(WithoutSend(s.log, id))[m] == if m.id == id then 0 else multiset(s.log)[m] {
      WithoutSendCounts(s.log, id, m);
    }
    forall m ensures multiset(WithoutMail(s.mail, id))[m] == if m.id == id then 0 else multiset(s.mail)[m] {
      WithoutMailCounts(s.mail, id, m);
    }
  }

  /** An answer frees the organization's slots for its address, and a stamp moves its own send's time. */
  lemma {:induction false} AnswersAndStamps(limits: Limits, s: State, step: Step)
    requires step.Answer? || (step.Stamp? && s.clock <= step.at)
    ensures var t := Next(limits, s, step);
            if step.Answer? then
              && t == s.(log := t.log) && |t.log| == |s.log|
              && forall i :: 0 <= i < |s.log| ==>
                   var mine := s.log[i].organization == step.organization && s.log[i].email == step.email;
                   t.log[i] == if mine && s.log[i].confirmedAt == None then s.log[i].(confirmedAt := Some(step.now))
                               else s.log[i]
            else
              && t == s.(mail := t.mail, clock := step.at) && |t.mail| == |s.mail|
              && forall i :: 0 <= i < |s.mail| ==>
                   t.mail[i] == if s.mail[i].id == step.id then s.mail[i].(sentAt := step.at) else s.mail[i]
  {}

  /** What providers and addresses decide takes effect at once. */
  lemma {:induction false} DecisionsTakeEffect(limits: Limits, s: State, blocked: set<Organization>,
                                               suppressed: set<Address>, optedOut: set<(Organization, Address)>)
    ensures Next(limits, s, Provider(blocked, suppressed))
            == State(s.log, s.mail, blocked, suppressed, s.optedOut, s.clock)
    ensures Next(limits, s, Consents(optedOut)) == State(s.log, s.mail, s.blocked, s.suppressed, optedOut, s.clock)
  {}

  /** Confirming an address frees its slot: none of its sends counts toward the cap any more. */
  lemma {:induction false} AnswersFreeTheSlot(limits: Limits, s: State, organization: Organization, email: Address,
                                              now: int, at: int)
    ensures email !in Waiting(Next(limits, s, Answer(organization, email, now)).log, organization, at)
    ensures Waiting(Next(limits, s, Answer(organization, email, now)).log, organization, at)
            == Waiting(s.log, organization, at) - {email}
  {
    var t := Next(limits, s, Answer(organization, email, now));
    forall e ensures e in Waiting(t.log, organization, at) <==> e in Waiting(s.log, organization, at) - {email} {
      if e in Waiting(t.log, organization, at) {
        var i :| 0 <= i < |t.log| && Unanswered(t.log[i], organization, at) && t.log[i].email == e;
        assert Unanswered(s.log[i], organization, at);
      }
      if e in Waiting(s.log, organization, at) - {email} {
        var i :| 0 <= i < |s.log| && Unanswered(s.log[i], organization, at) && s.log[i].email == e;
        assert Unanswered(t.log[i], organization, at);
      }
    }
  }

  // ---------------------------------------------------------------------------------------------
  // The tables
  // ---------------------------------------------------------------------------------------------

  class SendLog {
    const limits: Limits
    var log: seq<Send>
    var mail: seq<Unsolicited>
    var blocked: set<Organization>
    var suppressed: set<Address>
    var optedOut: set<(Organization, Address)>
    var clock: int

    constructor (limits: Limits)
      ensures this.limits == limits && View() == INITIAL
    {
      this.limits := limits;
      log, mail, blocked, suppressed, optedOut, clock := [], [], {}, {}, {}, 0;
    }

    function View(): State
      reads this
    {
      State(log, mail, blocked, suppressed, optedOut, clock)
    }

    method IsOverCeiling(visitor: bool, at: int) returns (over: bool)
      ensures over == OverCeiling(mail, limits.ceiling, visitor, at)
    {
      if limits.ceiling == 0 {
        return false;
      }
      var sent, fromVisitors := 0, 0;
      for i := 0 to |mail|
        invariant sent == SentSince(mail[..i], at - DAY, false)
        invariant fromVisitors == SentSince(mail[..i], at - DAY, true)
      {
        assert mail[..i + 1][..i] == mail[..i];
        if mail[i].sentAt > at - DAY {
          sent := sent + 1;
          if mail[i].organization.None? {
            fromVisitors := fromVisitors + 1;
          }
        }
      }
      assert mail[..|mail|] == mail;
      return sent >= limits.ceiling || (visitor && fromVisitors * 2 >= limits.ceiling);
    }

    method Refuses(organization: Organization, email: Address, visitor: bool, at: int) returns (r: Option<Refusal>)
      ensures r == GuardRefusal(limits, View(), organization, email, visitor, at)
    {
      if organization in blocked {
        return Some(Blocked);
      }
      var over := IsOverCeiling(visitor, at);
      if over {
        return Some(Ceiling);
      }
      return if email in suppressed then Some(Suppressed) else None;
    }

    method CountUnconfirmed(organization: Organization, now: int) returns (n: nat)
      ensures n == |UnconfirmedAddresses(log, organization, now)|
    {
      var addresses: set<Address> := {};
      for i := 0 to |log|
        invariant addresses == UnconfirmedAddresses(log[..i], organization, now)
      {
        ghost var before, after := UnconfirmedAddresses(log[..i], organization, now),
                                   UnconfirmedAddresses(log[..i + 1], organization, now);
        assert after == before + if Pending(log[i], organization, now) then {log[i].email} else {} by {
          forall e | e in after ensures e in before || (Pending(log[i], organization, now) && e == log[i].email) {
            var k :| 0 <= k < i + 1 && Pending(log[..i + 1][k], organization, now) && log[..i + 1][k].email == e;
            if k < i { assert log[..i][k] == log[..i + 1][k]; }
          }
          forall e | e in before ensures e in after {
            var k :| 0 <= k < i && Pending(log[..i][k], organization, now) && log[..i][k].email == e;
            assert log[..i + 1][k] == log[..i][k];
          }
          assert log[..i + 1][i] == log[i];
        }
        if log[i].organization == organization && log[i].sentAt > now - PENDING_WINDOW && log[i].confirmedAt.None? {
          addresses := addresses + {log[i].email};
        }
      }
      assert log[..|log|] == log;
      return |addresses|;
    }

    /** Logs a send, unless the interval, the cap or the guard forbids it. */
    method ClaimSlot(id: nat, organization: Organization, email: Address, now: int, begun: int, at: int, invited: bool)
      returns (refused: Option<Refusal>)
      requires now <= begun <= at <= begun + limits.wait && clock <= at
      modifies this
      ensures refused == SlotRefusal(limits, old(View()), organization, email, now, at)
      ensures View() == if refused.Some? then old(View()).(clock := at)
                        else WithSend(old(View()), id, organization, email, now, begun, at, invited)
      ensures !invited ==> View() == Next(limits, old(View()), Claim(id, organization, email, now, begun, at))
    {
      clock := at;
      var last := LastSent(log, organization, email);
      if last.Some? && now < last.value + RESEND_INTERVAL {
        return Some(TooSoon(Some(last.value + RESEND_INTERVAL)));
      }
      var waiting := CountUnconfirmed(organization, now);
      if waiting >= limits.cap {
        return Some(Capped);
      }
      refused := Refuses(organization, email, false, at);
      if refused.Some? {
        return;
      }
      log := log + [Send(id, organization, email, now, None, invited)];
      mail := mail + [Unsolicited(id, Some(organization), begun, begun)];
    }

    /** As a confirmation, for an address that did not opt out and has fewer unanswered emails than allowed. */
    method ClaimInvitation(id: nat, organization: Organization, email: Address, now: int, begun: int, at: int)
      returns (refused: Option<Refusal>)
      requires now <= begun <= at <= begun + limits.wait && clock <= at
      modifies this
      ensures refused == InvitationRefusal(limits, old(View()), organization, email, now, at)
      ensures View() == Next(limits, old(View()), Invite(id, organization, email, now, begun, at))
    {
      if (organization, email) in optedOut {
        clock := at;
        return Some(OptedOut);
      }
      var unanswered := UnansweredSends(log, organization, email, now);
      if unanswered >= INVITATION_SENDS_PER_ADDRESS {
        clock := at;
        return Some(TooSoon(None));
      }
      refused := ClaimSlot(id, organization, email, now, begun, at, true);
    }

    /** Undoes a failed send, in both tables. */
    method ReleaseSend(id: nat)
      modifies this`log, this`mail
      ensures View() == Next(limits, old(View()), Release(id))
    {
      log := WithoutSend(log, id);
      mail := WithoutMail(mail, id);
    }
  }
}
