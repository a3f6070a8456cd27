/**
 * Consent of the addresses behind an organization's email channels: confirmation, opting out, and the
 * one time an address that opted out may be asked again
 * (src/lib/server/services/email-channel.service.ts, notification-channel.service.ts). Addresses are
 * lowercased.
 */
module Consent {
  import opened Prelude

  const HOUR := 3_600_000
  const CONFIRMATION_TTL := 48 * HOUR

  type Address = string
  type Token = nat

  datatype Channel = Channel(
    address: Address, token: Token, confirmationSentAt: Option<int>,
    verifiedAt: Option<int>, unsubscribedAt: Option<int>, reaskedAt: Option<int>)

  /** An address's row outlives its opt-out, so that a used re-ask stays used. */
  datatype OptOut = OptOut(unsubscribedAt: Option<int>, reaskedAt: Option<int>)

  /** A claimed confirmation, and what undoing it restores. */
  datatype Claim = Claim(channel: nat, address: Address, sentBefore: Option<int>, unsubscribedBefore: Option<int>,
                         reasked: bool, undone: bool)

  /** A channel save between reading the address's opt-out and writing the channel. None creates one. */
  datatype Save = Save(target: Option<nat>, recipient: Channel)

  /**
   * The organization's rows, and what is in progress: saves that have read but not written, and
   * addresses whose channel a confirmation has verified but whose opt-out it has not lifted yet.
   */
  datatype State = State(channels: seq<Channel>, optOuts: map<Address, OptOut>, claims: seq<Claim>,
                         saves: seq<Save>, lifting: multiset<Address>)

  predicate OptedOut(optOuts: map<Address, OptOut>, a: Address) {
    a in optOuts && optOuts[a].unsubscribedAt.Some?
  }

  /** A channel as it starts at an address: nothing asked or confirmed, opted out if the address's row is. */
  function RecipientFor(optOuts: map<Address, OptOut>, a: Address, token: Token): Channel {
    if a in optOuts then Channel(a, token, None, None, optOuts[a].unsubscribedAt, optOuts[a].reaskedAt)
    else Channel(a, token, None, None, None, None)
  }

  datatype Decision =
    | AlreadyConfirmed | MemberConfirmed | Unsubscribed | Reasked | Unverified | Refused | Asked(reask: bool)

  /**
   * Whether a confirmation may go out. `member`: the address is a verified member's. `requester`: the
   * one asking has a verified address. `slot`: the send limits leave room.
   */
  function Decide(s: State, ch: nat, member: bool, requester: bool, slot: bool): Decision
    requires ch < |s.channels|
  {
    var c := s.channels[ch];
    var out := OptedOut(s.optOuts, c.address);
    if c.verifiedAt.Some? then AlreadyConfirmed
    else if out && s.optOuts[c.address].reaskedAt.Some? then
      if c.unsubscribedAt.Some? then Unsubscribed else Reasked
    else if !out && member then MemberConfirmed
    else if !requester then Unverified
    else if !slot then Refused
    else Asked(out)
  }

  function FindToken(channels: seq<Channel>, token: Token): (i: Option<nat>)
    ensures i.Some? ==> i.value < |channels| && channels[i.value].token == token
    ensures i.None? ==> forall k :: 0 <= k < |channels| ==> channels[k].token != token
  {
    if channels == [] then None
    else if channels[|channels| - 1].token == token then Some(|channels| - 1)
    else FindToken(channels[..|channels| - 1], token)
  }

  /** Every channel at the address stops. */
  function Stopped(channels: seq<Channel>, a: Address, now: int, reaskedAt: Option<int>): seq<Channel> {
    seq(|channels|, i requires 0 <= i < |channels| =>
      if channels[i].address == a then
        channels[i].(verifiedAt := None, unsubscribedAt := Some(now), reaskedAt := reaskedAt)
      else channels[i])
  }

  function ReaskedOf(optOuts: map<Address, OptOut>, a: Address): Option<int> {
    if a in optOuts then optOuts[a].reaskedAt else None
  }

  /** Records the opt-out, keeping a used re-ask, and stops every channel at the address. */
  function WithOptOut(s: State, a: Address, now: int, channelReaskedAt: Option<int>): State {
    var kept := ReaskedOf(s.optOuts, a);
    s.(optOuts := s.optOuts[a := OptOut(Some(now), kept)],
       channels := Stopped(s.channels, a, now, if channelReaskedAt.Some? then channelReaskedAt else kept))
  }

  function WithReasked(optOuts: map<Address, OptOut>, a: Address, at: Option<int>): map<Address, OptOut> {
    if a in optOuts then optOuts[a := optOuts[a].(reaskedAt := at)] else optOuts
  }

  function WithLifted(optOuts: map<Address, OptOut>, a: Address): map<Address, OptOut> {
    if a in optOuts then optOuts[a := optOuts[a].(unsubscribedAt := None)] else optOuts
  }

  predicate MemberConfirmable(optOuts: map<Address, OptOut>, c: Channel, a: Address) {
    c.address == a && c.verifiedAt.None? && c.unsubscribedAt.None? && !OptedOut(optOuts, a)
  }

  function MemberVerified(channels: seq<Channel>, optOuts: map<Address, OptOut>, a: Address, now: int): seq<Channel> {
    seq(|channels|, i requires 0 <= i < |channels| =>
      if MemberConfirmable(optOuts, channels[i], a) then channels[i].(verifiedAt := Some(now)) else channels[i])
  }

  predicate AnyMemberConfirmable(channels: seq<Channel>, optOuts: map<Address, OptOut>, a: Address) {
    exists i :: 0 <= i < |channels| && MemberConfirmable(optOuts, channels[i], a)
  }

  predicate Confirmable(c: Channel, now: int) {
    && c.verifiedAt.None? && c.unsubscribedAt.None?
    && c.confirmationSentAt.Some? && c.confirmationSentAt.value > now - CONFIRMATION_TTL
  }

  // ---------------------------------------------------------------------------------------------
  // Interleavings
  // ---------------------------------------------------------------------------------------------

  /**
   * Each transaction is one step. A save reads the opt-out and writes the channel in two, and so do
   * the confirmations verify a channel and lift the opt-out. Two workers that hold one queued
   * confirmation, after a takeover, may both undo its claim.
   */
  datatype Step =
    | SaveRead(target: Option<nat>, address: Address, token: Token)
    | SaveWrite(save: nat)
    | Ask(channel: nat, member: bool, requester: bool, slot: bool, token: Token, now: int)
    | Undo(claim: nat)
    | Confirm(token: Token, now: int)
    | ConfirmMember(address: Address, now: int)
    | Lift(address: Address)
    | Unsubscribe(token: Token, now: int)
    | UnsubscribeInvitation(address: Address, now: int)

  function AskStep(s: State, ch: nat, decision: Decision, token: Token, now: int): State
    requires ch < |s.channels|
  {
    var c := s.channels[ch];
    match decision
    case MemberConfirmed => s.(channels := s.channels[ch := c.(verifiedAt := Some(now))])
    case Asked(reask) =>
      var asked := c.(token := if reask then token else c.token, confirmationSentAt := Some(now));
      s.(channels := s.channels[ch := if reask then asked.(unsubscribedAt := None, reaskedAt := Some(now)) else asked],
         optOuts := if reask then WithReasked(s.optOuts, c.address, Some(now)) else s.optOuts,
         claims := s.claims + [Claim(ch, c.address, c.confirmationSentAt, c.unsubscribedAt, reask, false)])
    case _ => s
  }

  /** Takes a claim back, unless the channel has moved to another address since. */
  function UndoStep(s: State, k: nat): State
    requires k < |s.claims|
  {
    var claim := s.claims[k];
    var at := claim.channel;
    var restored :=
      if at < |s.channels| && s.channels[at].address == claim.address then
        var c := s.channels[at].(confirmationSentAt := claim.sentBefore, unsubscribedAt := claim.unsubscribedBefore);
        s.channels[at := if claim.reasked then c.(reaskedAt := None) else c]
      else s.channels;
    s.(channels := restored,
       optOuts := if claim.reasked then WithReasked(s.optOuts, claim.address, None) else s.optOuts,
       claims := s.claims[k := claim.(undone := true)])
  }

  function Next(s: State, step: Step): State {
    match step
    case SaveRead(target, address, token) =>
      s.(saves := s.saves + [Save(target, RecipientFor(s.optOuts, address, token))])
    case SaveWrite(k) =>
      if k >= |s.saves| then s
      else
        var save := s.saves[k];
        var left := s.saves[..k] + s.saves[k + 1..];
        if save.target.None? then s.(saves := left, channels := s.channels + [save.recipient])
        else if save.target.value < |s.channels| then
          s.(saves := left, channels := s.channels[save.target.value := save.recipient])
        else s.(saves := left)
    case Ask(ch, member, requester, slot, token, now) =>
      if ch >= |s.channels| then s else AskStep(s, ch, Decide(s, ch, member, requester, slot), token, now)
    case Undo(k) => if k >= |s.claims| then s else UndoStep(s, k)
    case Confirm(token, now) =>
      var i := FindToken(s.channels, token);
      if i.None? || !Confirmable(s.channels[i.value], now) then s
      else
        var c := s.channels[i.value];
        s.(channels := s.channels[i.value := c.(verifiedAt := Some(now))],
           lifting := s.lifting + multiset{c.address})
    case ConfirmMember(a, now) =>
      s.(channels := MemberVerified(s.channels, s.optOuts, a, now),
         lifting := if AnyMemberConfirmable(s.channels, s.optOuts, a) then s.lifting + multiset{a} else s.lifting)
    case Lift(a) =>
      if a !in s.lifting then s
      else s.(optOuts := WithLifted(s.optOuts, a), lifting := s.lifting - multiset{a})
    case Unsubscribe(token, now) =>
      var i := FindToken(s.channels, token);
      if i.None? || s.channels[i.value].unsubscribedAt.Some? then s
      else WithOptOut(s, s.channels[i.value].address, now, s.channels[i.value].reaskedAt)
    case UnsubscribeInvitation(a, now) =>
      if OptedOut(s.optOuts, a) then s else WithOptOut(s, a, now, None)
  }

  const INITIAL := State([], map[], [], [], multiset{})

  function Run(steps: seq<Step>): State {
    if steps == [] then INITIAL else Next(Run(steps[..|steps| - 1]), steps[|steps| - 1])
  }

  // ---------------------------------------------------------------------------------------------
  // The invariant
  // ---------------------------------------------------------------------------------------------

  /** Claims of the address made while it was opted out and not undone. */
  function ReasksOf(claims: seq<Claim>, a: Address): nat {
    if claims == [] then 0
    else
      var c := claims[|claims| - 1];
      ReasksOf(claims[..|claims| - 1], a) + if c.address == a && c.reasked && !c.undone then 1 else 0
  }

  ghost predicate NobodyVerifiedAgainstTheirWill(s: State) {
    forall i :: 0 <= i < |s.channels| && s.channels[i].verifiedAt.Some? && OptedOut(s.optOuts, s.channels[i].address)
      ==> s.channels[i].address in s.lifting
  }

  /** A re-ask that stands is on the address's row. */
  ghost predicate ReaskKnown(s: State, a: Address) {
    ReasksOf(s.claims, a) <= if ReaskedOf(s.optOuts, a).Some? then 1 else 0
  }

  ghost predicate Inv(s: State) {
    && NobodyVerifiedAgainstTheirWill(s)
    && (forall k :: 0 <= k < |s.saves| ==> s.saves[k].recipient.verifiedAt.None?)
    && (forall k :: 0 <= k < |s.claims| && s.claims[k].reasked ==> s.claims[k].address in s.optOuts)
  }

  /** What an undo takes off the count of re-asks that stand: nothing, when the claim was undone before. */
  lemma {:induction false} UndoneOnce(claims: seq<Claim>, k: nat, a: Address)
    requires k < |claims|
    ensures var gone := claims[k].address == a && claims[k].reasked && !claims[k].undone;
            && ReasksOf(claims[k := claims[k].(undone := true)], a) == ReasksOf(claims, a) - (if gone then 1 else 0)
            && (gone ==> ReasksOf(claims, a) >= 1)
  {
    var n := |claims| - 1;
    var after := claims[k := claims[k].(undone := true)];
    if k == n {
      assert after[..n] == claims[..n];
    } else {
      UndoneOnce(claims[..n], k, a);
      assert after[..n] == claims[..n][k := claims[k].(undone := true)];
    }
  }

  lemma {:induction false} SaveKeepsInv(s: State, step: Step)
    requires Inv(s) && (step.SaveRead? || step.SaveWrite?)
    ensures Inv(Next(s, step))
  {}

  lemma {:induction false} ConfirmKeepsInv(s: State, step: Step)
    requires Inv(s) && (step.Confirm? || step.ConfirmMember? || step.Lift?)
    ensures Inv(Next(s, step))
  {}

  lemma {:induction false} RequestKeepsInv(s: State, step: Step)
    requires Inv(s) && (step.Ask? || step.Undo?)
    ensures Inv(Next(s, step))
  {}

  lemma {:induction false} UnsubscribeKeepsInv(s: State, step: Step)
    requires Inv(s) && (step.Unsubscribe? || step.UnsubscribeInvitation?)
    ensures Inv(Next(s, step))
  {}

  lemma {:induction false} StepKeepsInv(s: State, step: Step)
    requires Inv(s)
    ensures Inv(Next(s, step))
  {
    if step.SaveRead? || step.SaveWrite? { SaveKeepsInv(s, step); }
    else if step.Confirm? || step.ConfirmMember? || step.Lift? { ConfirmKeepsInv(s, step); }
    else if step.Ask? || step.Undo? { RequestKeepsInv(s, step); }
    else { UnsubscribeKeepsInv(s, step); }
  }

  lemma {:induction false} RunsAreSound(steps: seq<Step>)
    ensures Inv(Run(steps))
  {
    if steps != [] {
      RunsAreSound(steps[..|steps| - 1]);
      StepKeepsInv(Run(steps[..|steps| - 1]), steps[|steps| - 1]);
    }
  }

  // ---------------------------------------------------------------------------------------------
  // What holds under any interleaving
  // ---------------------------------------------------------------------------------------------

  /**
   * While an address is opted out, no channel sends to it, however saves, confirmations, member
   * verifications and unsubscribes interleave. The only exception is the moment between the two
   * statements of a confirmation, which has verified the channel and is about to lift the opt-out.
   */
  lemma {:induction false} OptedOutIsNotVerified(steps: seq<Step>, i: nat)
    requires i < |Run(steps).channels| && OptedOut(Run(steps).optOuts, Run(steps).channels[i].address)
    requires Run(steps).channels[i].address !in Run(steps).lifting
    ensures Run(steps).channels[i].verifiedAt.None?
  {
    RunsAreSound(steps);
  }

  /** The undo of a claim that was undone before, while a newer re-ask of its address stands. */
  predicate UndoneOverNewer(s: State, step: Step, a: Address) {
    && step.Undo? && step.claim < |s.claims|
    && var c := s.claims[step.claim];
       c.undone && c.reasked && c.address == a && ReasksOf(s.claims, a) == 1
  }

  lemma {:induction false} AskKeepsKnown(s: State, step: Step, a: Address)
    requires ReaskKnown(s, a) && step.Ask?
    ensures ReaskKnown(Next(s, step), a)
  {
    var t := Next(s, step);
    if |t.claims| > |s.claims| { assert t.claims[..|s.claims|] == s.claims; }
  }

  /** The address's row keeps step with the re-asks that stand, but for an undo repeated over a newer one. */
  lemma {:induction false} ReaskKnownStep(s: State, step: Step, a: Address)
    requires Inv(s) && ReaskKnown(s, a)
    ensures ReaskKnown(Next(s, step), a) <==> !UndoneOverNewer(s, step, a)
  {
    match step {
      case Ask(_, _, _, _, _, _) => AskKeepsKnown(s, step, a);
      case Undo(k) => if k < |s.claims| { UndoneOnce(s.claims, k, a); }
      case _ =>
    }
  }

  /** Whether the address's row kept step with the re-asks that stand all along. */
  ghost predicate KnownThroughout(steps: seq<Step>, a: Address) {
    ReaskKnown(Run(steps), a) && (steps != [] ==> KnownThroughout(steps[..|steps| - 1], a))
  }

  predicate NoUndoOverNewer(steps: seq<Step>, a: Address) {
    steps != [] ==>
      var n := |steps| - 1;
      NoUndoOverNewer(steps[..n], a) && !UndoneOverNewer(Run(steps[..n]), steps[n], a)
  }

  lemma {:induction false} KnownExactlyWhen(steps: seq<Step>, a: Address)
    ensures KnownThroughout(steps, a) <==> NoUndoOverNewer(steps, a)
  {
    if steps != [] {
      var n := |steps| - 1;
      KnownExactlyWhen(steps[..n], a);
      RunsAreSound(steps[..n]);
      if KnownThroughout(steps[..n], a) { ReaskKnownStep(Run(steps[..n]), steps[n], a); }
    }
  }

  /**
   * Over an address's lifetime at most one confirmation claimed after it opted out stands, and its row always says
   * so and refuses the next, exactly as long as no claim is undone a second time over a newer re-ask.
   */
  lemma {:induction false} AtMostOneReaskExactlyWhen(steps: seq<Step>, a: Address)
    ensures KnownThroughout(steps, a) <==> NoUndoOverNewer(steps, a)
    ensures NoUndoOverNewer(steps, a) ==> ReasksOf(Run(steps).claims, a) <= 1
  {
    KnownExactlyWhen(steps, a);
  }

  /** So once a re-ask went out, the next opt-out is final: no request asks the address again. */
  lemma {:induction false} SecondOptOutIsFinal(steps: seq<Step>, ch: nat, member: bool, requester: bool, slot: bool)
    requires ch < |Run(steps).channels|
    requires var s := Run(steps);
             var a := s.channels[ch].address;
             NoUndoOverNewer(steps, a) && OptedOut(s.optOuts, a) && ReasksOf(s.claims, a) == 1
    ensures Decide(Run(steps), ch, member, requester, slot) in {AlreadyConfirmed, Unsubscribed, Reasked}
  {
    KnownExactlyWhen(steps, Run(steps).channels[ch].address);
  }

  lemma {:induction false} Extend(steps: seq<Step>, s: State, step: Step) returns (more: seq<Step>, t: State)
    requires s == Run(steps)
    ensures more == steps + [step] && t == Next(s, step) == Run(more)
  {
    more, t := steps + [step], Next(s, step);
    assert more[..|steps|] == steps;
  }

  /** Someone declined an invitation. Their new channel is asked once, and the claim is undone. */
  lemma {:induction false} RunToAReask(a: Address) returns (steps: seq<Step>, s: State)
    ensures s == Run(steps) && |s.channels| == 1 && |s.claims| == 1
    ensures s.channels[0].address == a && s.channels[0].verifiedAt.None?
    ensures OptedOut(s.optOuts, a) && s.optOuts[a].reaskedAt.None?
    ensures s.claims[0].reasked && s.claims[0].undone && s.claims[0].address == a
  {
    s := INITIAL;
    steps := [];
    steps, s := Extend(steps, s, UnsubscribeInvitation(a, 0));
    steps, s := Extend(steps, s, SaveRead(None, a, 0));
    steps, s := Extend(steps, s, SaveWrite(0));
    steps, s := Extend(steps, s, Ask(0, false, true, true, 1, 1));
    steps, s := Extend(steps, s, Undo(0));
  }

  /** A claim undone twice, the second time after a newer re-ask went out, lets another one go out an hour later. */
  lemma {:induction false} UndoneTwiceAsksTwice(a: Address) returns (steps: seq<Step>)
    ensures ReasksOf(Run(steps).claims, a) == 2
  {
    var s;
    steps, s := RunToAReask(a);
    var c0 := s.claims[0];
    steps, s := Extend(steps, s, Ask(0, false, true, true, 2, 2));
    steps, s := Extend(steps, s, Undo(0));
    steps, s := Extend(steps, s, Ask(0, false, true, true, 3, 3 + HOUR));
    assert |s.claims| == 3 && s.claims[..2][..1] == [c0] && s.claims[..2][..1][..0] == [];
    assert ReasksOf(s.claims[..2][..1], a) == 0;
    assert ReasksOf(s.claims[..2], a) == 1;
  }

  // ---------------------------------------------------------------------------------------------
  // What ends an opt-out
  // ---------------------------------------------------------------------------------------------

  function RunFrom(s: State, steps: seq<Step>): State {
    if steps == [] then s else Next(RunFrom(s, steps[..|steps| - 1]), steps[|steps| - 1])
  }

  /** The step verifies a channel at the address by the link that went to it. */
  predicate ConfirmsBy(s: State, step: Step, a: Address) {
    && step.Confirm?
    && var i := FindToken(s.channels, step.token);
       i.Some? && Confirmable(s.channels[i.value], step.now) && s.channels[i.value].address == a
  }

  /** The step takes an opt-out of the address, by a link or from an invitation. */
  predicate OptsOut(s: State, step: Step, a: Address) {
    || (step.UnsubscribeInvitation? && step.address == a)
    || (step.Unsubscribe?
        && var i := FindToken(s.channels, step.token);
           i.Some? && s.channels[i.value].unsubscribedAt.None? && s.channels[i.value].address == a)
  }

  /** Nothing in the run confirms the address by its link. */
  predicate Unconfirmed(s: State, steps: seq<Step>, a: Address) {
    steps != [] ==>
      var n := |steps| - 1;
      Unconfirmed(s, steps[..n], a) && !ConfirmsBy(RunFrom(s, steps[..n]), steps[n], a)
  }

  predicate NotOptedOutAgain(s: State, steps: seq<Step>, a: Address) {
    steps != [] ==>
      var n := |steps| - 1;
      NotOptedOutAgain(s, steps[..n], a) && !OptsOut(RunFrom(s, steps[..n]), steps[n], a)
  }

  lemma {:induction false} OptOutStandsStep(s: State, step: Step, a: Address)
    requires OptedOut(s.optOuts, a) && a !in s.lifting && !ConfirmsBy(s, step, a)
    ensures OptedOut(Next(s, step).optOuts, a) && a !in Next(s, step).lifting
  {}

  /**
   * An opt-out ends only by the recipient's own hand: whatever the organization and its members do, the
   * address stays opted out until a link mailed to it is used.
   */
  lemma {:induction false} OnlyTheirLinkEndsAnOptOut(s: State, steps: seq<Step>, a: Address)
    requires OptedOut(s.optOuts, a) && a !in s.lifting && Unconfirmed(s, steps, a)
    ensures OptedOut(RunFrom(s, steps).optOuts, a) && a !in RunFrom(s, steps).lifting
  {
    if steps != [] {
      var n := |steps| - 1;
      OnlyTheirLinkEndsAnOptOut(s, steps[..n], a);
      OptOutStandsStep(RunFrom(s, steps[..n]), steps[n], a);
    }
  }

  lemma {:induction false} LiftedOrStanding(s: State, step: Step, a: Address)
    requires !ConfirmsBy(s, step, a) && !OptsOut(s, step, a)
    ensures OptedOut(s.optOuts, a) ==>
              && (OptedOut(Next(s, step).optOuts, a) <==> !(a in s.lifting && step == Lift(a)))
              && (OptedOut(Next(s, step).optOuts, a) ==> (a in Next(s, step).lifting <==> a in s.lifting))
    ensures !OptedOut(s.optOuts, a) ==> !OptedOut(Next(s, step).optOuts, a)
  {}

  /**
   * An opt-out that is not followed by a new confirmation or a new opt-out is forgotten exactly when a
   * confirmation of the address was between its two statements as it was taken, and goes on to the second:
   * the lift does not look at what came between.
   */
  lemma {:induction false} OptOutIsLostExactlyWhenLifting(s: State, steps: seq<Step>, a: Address)
    requires OptedOut(s.optOuts, a) && Unconfirmed(s, steps, a) && NotOptedOutAgain(s, steps, a)
    ensures OptedOut(RunFrom(s, steps).optOuts, a) <==> !(a in s.lifting && Lift(a) in steps)
    ensures OptedOut(RunFrom(s, steps).optOuts, a) ==> (a in RunFrom(s, steps).lifting <==> a in s.lifting)
  {
    if steps != [] {
      var n := |steps| - 1;
      OptOutIsLostExactlyWhenLifting(s, steps[..n], a);
      LiftedOrStanding(RunFrom(s, steps[..n]), steps[n], a);
      assert steps == steps[..n] + [steps[n]];
    }
  }

  /** An address saved, asked, confirmed and opted out, in that order, is not opted out in the end. */
  lemma {:induction false} ConfirmationForgetsAnOptOut(a: Address) returns (before: seq<Step>, after: seq<Step>)
    ensures OptedOut(Run(before).optOuts, a)
    ensures after == before + [Lift(a)] && !OptedOut(Run(after).optOuts, a)
    ensures before != [] && before[|before| - 1] == Unsubscribe(0, 2)
  {
    var s := INITIAL;
    before := [];
    before, s := Extend(before, s, SaveRead(None, a, 0));
    before, s := Extend(before, s, SaveWrite(0));
    before, s := Extend(before, s, Ask(0, false, true, true, 0, 0));
    before, s := Extend(before, s, Confirm(0, 1));
    before, s := Extend(before, s, Unsubscribe(0, 2));
    assert OptedOut(s.optOuts, a) && a in s.lifting;
    after, s := Extend(before, s, Lift(a));
  }

  // ---------------------------------------------------------------------------------------------
  // What each request does, told by the rows alone
  // ---------------------------------------------------------------------------------------------

  ghost predicate OutNow(s: State, a: Address) {
    a in s.optOuts && s.optOuts[a].unsubscribedAt != None
  }

  /** The address is opted out and the one re-ask it may get was used. */
  ghost predicate UsedUp(s: State, a: Address) {
    OutNow(s, a) && s.optOuts[a].reaskedAt != None
  }

  /**
   * An email goes out exactly to an unconfirmed channel whose address has not used up its re-ask and is no member's,
   * unless the member opted out, for a requester with a verified address and with a slot left. Each other decision
   * has its own cause.
   */
  ghost predicate DecidedSo(s: State, ch: nat, member: bool, requester: bool, slot: bool, d: Decision)
    requires ch < |s.channels|
  {
    var c := s.channels[ch];
    var open := c.verifiedAt == None && !UsedUp(s, c.address);
    var trusted := member && !OutNow(s, c.address);
    match d
    case AlreadyConfirmed => c.verifiedAt != None
    case Unsubscribed => c.verifiedAt == None && UsedUp(s, c.address) && c.unsubscribedAt != None
    case Reasked => c.verifiedAt == None && UsedUp(s, c.address) && c.unsubscribedAt == None
    case MemberConfirmed => open && trusted
    case Unverified => open && !trusted && !requester
    case Refused => open && !trusted && requester && !slot
    case Asked(reask) => open && !trusted && requester && slot && (reask <==> OutNow(s, c.address))
  }

  lemma {:induction false} DecisionsHaveTheirCause(s: State, ch: nat, member: bool, requester: bool, slot: bool,
                                                   d: Decision)
    requires ch < |s.channels|
    ensures Decide(s, ch, member, requester, slot) == d <==> DecidedSo(s, ch, member, requester, slot, d)
  {}

  /**
   * What a request leaves: nothing new, a confirmed channel, a later send time, or for an address that opted out the
   * re-ask, used on its row and on the channel, which gets the new token and leaves its opt-out to the address's row.
   */
  lemma {:induction false} RequestsLeave(s: State, ch: nat, member: bool, requester: bool, slot: bool, token: Token,
                                         now: int, d: Decision)
    requires ch < |s.channels| && DecidedSo(s, ch, member, requester, slot, d)
    ensures var t := Next(s, Ask(ch, member, requester, slot, token, now));
            var c, a := s.channels[ch], s.channels[ch].address;
            match d
            case MemberConfirmed =>
              t == s.(channels := s.channels[ch := Channel(a, c.token, c.confirmationSentAt, Some(now),
                                                           c.unsubscribedAt, c.reaskedAt)])
            case Asked(false) =>
              t == s.(channels := s.channels[ch := Channel(a, c.token, Some(now), None, c.unsubscribedAt, c.reaskedAt)],
                      claims := s.claims + [Claim(ch, a, c.confirmationSentAt, c.unsubscribedAt, false, false)])
            case Asked(true) =>
              t == s.(channels := s.channels[ch := Channel(a, token, Some(now), None, None, Some(now))],
                      optOuts := s.optOuts[a := OptOut(s.optOuts[a].unsubscribedAt, Some(now))],
                      claims := s.claims + [Claim(ch, a, c.confirmationSentAt, c.unsubscribedAt, true, false)])
            case _ => t == s
  {
    DecisionsHaveTheirCause(s, ch, member, requester, slot, d);
  }

  /**
   * An undo right after its claim puts the rows back as they were, but that a re-asked channel keeps the new token
   * and forgets any re-ask of its own.
   */
  lemma {:induction false} UndoPutsBack(s: State, ch: nat, member: bool, requester: bool, slot: bool, token: Token,
                                        now: int)
    requires ch < |s.channels| && Decide(s, ch, member, requester, slot).Asked?
    ensures var t := Next(Next(s, Ask(ch, member, requester, slot, token, now)), Undo(|s.claims|));
            && t.optOuts == s.optOuts && t.saves == s.saves && t.lifting == s.lifting
            && t.channels
               == (if OutNow(s, s.channels[ch].address) then
                     s.channels[ch := s.channels[ch].(token := token, reaskedAt := None)]
                   else s.channels)
            && |t.claims| == |s.claims| + 1 && t.claims[..|s.claims|] == s.claims && t.claims[|s.claims|].undone
  {
    var a := s.channels[ch].address;
    if OutNow(s, a) { assert s.optOuts[a := s.optOuts[a]] == s.optOuts; }
  }

  /** An undo touches the channel only while it is at the address that was asked, and the row only for a re-ask. */
  lemma {:induction false} UndosTouch(s: State, k: nat)
    requires k < |s.claims|
    ensures var t, claim := Next(s, Undo(k)), s.claims[k];
            && t.saves == s.saves && t.lifting == s.lifting && t.claims == s.claims[k := claim.(undone := true)]
            && |t.channels| == |s.channels|
            && (forall i :: 0 <= i < |s.channels| ==>
                  t.channels[i]
                  == if i == claim.channel && s.channels[i].address == claim.address then
                       Channel(claim.address, s.channels[i].token, claim.sentBefore, s.channels[i].verifiedAt,
                               claim.unsubscribedBefore, if claim.reasked then None else s.channels[i].reaskedAt)
                     else s.channels[i])
            && t.optOuts.Keys == s.optOuts.Keys
            && (forall a :: a in s.optOuts ==>
                  t.optOuts[a] == if claim.reasked && a == claim.address then OptOut(s.optOuts[a].unsubscribedAt, None)
                                  else s.optOuts[a])
  {}

  /** A save between two others leaves a channel that nobody was asked about, stopped if its address opted out. */
  lemma {:induction false} SavesLeave(s: State, target: Option<nat>, a: Address, token: Token)
    ensures var t := Next(Next(s, SaveRead(target, a, token)), SaveWrite(|s.saves|));
            var c := Channel(a, token, None, None,
                             if a in s.optOuts then s.optOuts[a].unsubscribedAt else None,
                             if a in s.optOuts then s.optOuts[a].reaskedAt else None);
            && t.saves == s.saves && t.optOuts == s.optOuts && t.claims == s.claims && t.lifting == s.lifting
            && (target.None? ==> t.channels == s.channels + [c])
            && (target.Some? ==>
                  t.channels == if target.value < |s.channels| then s.channels[target.value := c] else s.channels)
  {
    var m := Next(s, SaveRead(target, a, token));
    assert m.saves[..|s.saves|] + m.saves[|s.saves| + 1..] == s.saves;
  }

  /** A write finds what its read made, whatever else is under way. */
  lemma {:induction false} SavesKeepTheirPlace(s: State, k: nat)
    requires k < |s.saves|
    ensures var t, save := Next(s, SaveWrite(k)), s.saves[k];
            && t.saves == Without(s.saves, k)
            && t.channels == (if save.target.None? then s.channels + [save.recipient]
                              else if save.target.value < |s.channels| then
                                s.channels[save.target.value := save.recipient]
                              else s.channels)
  {}

  /** No other channel has the token. */
  ghost predicate OwnToken(s: State, i: nat)
    requires i < |s.channels|
  {
    forall k :: 0 <= k < |s.channels| && s.channels[k].token == s.channels[i].token ==> k == i
  }

  /**
   * A link verifies its channel exactly when that is neither confirmed nor stopped and was asked less than two days
   * ago. Its address's opt-out is then to be lifted.
   */
  lemma {:induction false} LinksConfirmExactlyWhen(s: State, i: nat, now: int)
    requires i < |s.channels| && OwnToken(s, i)
    ensures var t, c := Next(s, Confirm(s.channels[i].token, now)), s.channels[i];
            var confirms := && c.verifiedAt == None && c.unsubscribedAt == None
                            && c.confirmationSentAt.Some? && now < c.confirmationSentAt.value + 172_800_000;
            if confirms then
              t == s.(channels := s.channels[i := c.(verifiedAt := Some(now))],
                      lifting := s.lifting + multiset{c.address})
            else t == s
  {
    var found := FindToken(s.channels, s.channels[i].token);
    assert found == Some(i);
  }

  lemma {:induction false} UnknownLinksDoNothing(s: State, token: Token, now: int)
    requires forall i :: 0 <= i < |s.channels| ==> s.channels[i].token != token
    ensures Next(s, Confirm(token, now)) == s && Next(s, Unsubscribe(token, now)) == s
  {}

  /** A member's address verifies its pending channels, and just then its row is to be lifted. */
  lemma {:induction false} MembersConfirm(s: State, a: Address, now: int)
    ensures var t := Next(s, ConfirmMember(a, now));
            var pending := (c: Channel) =>
              c.address == a && c.verifiedAt == None && c.unsubscribedAt == None && !OutNow(s, a);
            && t.optOuts == s.optOuts && t.claims == s.claims && t.saves == s.saves
            && |t.channels| == |s.channels|
            && (forall i :: 0 <= i < |s.channels| ==>
                  t.channels[i] == if pending(s.channels[i]) then s.channels[i].(verifiedAt := Some(now))
                                   else s.channels[i])
            && t.lifting == s.lifting + if exists c :: c in s.channels && pending(c) then multiset{a} else multiset{}
  {
    if c :| c in s.channels && c.address == a && c.verifiedAt == None && c.unsubscribedAt == None && !OutNow(s, a) {
      var i :| 0 <= i < |s.channels| && s.channels[i] == c;
      assert MemberConfirmable(s.optOuts, s.channels[i], a);
    }
    if i :| 0 <= i < |s.channels| && MemberConfirmable(s.optOuts, s.channels[i], a) {
      assert s.channels[i] in s.channels;
    }
  }

  /** The second statement of a confirmation clears the opt-out, whenever it was taken, and keeps a used re-ask. */
  lemma {:induction false} LiftsClear(s: State, a: Address)
    ensures var t := Next(s, Lift(a));
            if a !in s.lifting then t == s
            else
              && t.channels == s.channels && t.claims == s.claims && t.saves == s.saves
              && t.lifting == s.lifting - multiset{a}
              && t.optOuts == if a in s.optOuts then s.optOuts[a := OptOut(None, s.optOuts[a].reaskedAt)] else s.optOuts
  {}

  /** Every channel at the address is stopped and unconfirmed, with the given re-ask. The others are as before. */
  ghost predicate StoppedAt(before: seq<Channel>, after: seq<Channel>, a: Address, now: int, reaskedAt: Option<int>) {
    && |after| == |before|
    && forall i :: 0 <= i < |before| ==>
         after[i] == if before[i].address == a then
                       Channel(a, before[i].token, before[i].confirmationSentAt, None, Some(now), reaskedAt)
                     else before[i]
  }

  /**
   * An opt-out by a channel's link stops every channel at its address and keeps what re-ask was used, on the channel
   * or on the row. A stopped channel's link does nothing more.
   */
  lemma {:induction false} UnsubscribesStop(s: State, i: nat, now: int)
    requires i < |s.channels| && OwnToken(s, i)
    ensures var t, c := Next(s, Unsubscribe(s.channels[i].token, now)), s.channels[i];
            var kept := if c.address in s.optOuts then s.optOuts[c.address].reaskedAt else None;
            if c.unsubscribedAt.Some? then t == s
            else
              && t.optOuts == s.optOuts[c.address := OptOut(Some(now), kept)]
              && StoppedAt(s.channels, t.channels, c.address, now, if c.reaskedAt != None then c.reaskedAt else kept)
              && t.claims == s.claims && t.saves == s.saves && t.lifting == s.lifting
  {
    assert FindToken(s.channels, s.channels[i].token) == Some(i);
  }

  /** So does an opt-out from an invitation, once. */
  lemma {:induction false} InvitationsStop(s: State, a: Address, now: int)
    ensures var t := Next(s, UnsubscribeInvitation(a, now));
            var kept := if a in s.optOuts then s.optOuts[a].reaskedAt else None;
            if OutNow(s, a) then t == s
            else
              && t.optOuts == s.optOuts[a := OptOut(Some(now), kept)]
              && StoppedAt(s.channels, t.channels, a, now, kept)
              && t.claims == s.claims && t.saves == s.saves && t.lifting == s.lifting
  {}

  // ---------------------------------------------------------------------------------------------
  // The service
  // ---------------------------------------------------------------------------------------------

  lemma {:induction false} KeepsTokens(channels: seq<Channel>, i: nat, c: Channel, token: Token)
    requires i < |channels| && c.token == channels[i].token
    ensures FindToken(channels[i := c], token) == FindToken(channels, token)
  {
    var n := |channels| - 1;
    if channels[n].token != token {
      if i < n {
        KeepsTokens(channels[..n], i, c, token);
        assert channels[i := c][..n] == channels[..n][i := c];
      } else {
        assert channels[i := c][..n] == channels[..n];
      }
    }
  }

  class EmailChannels {
    var channels: seq<Channel>
    var optOuts: map<Address, OptOut>

    constructor ()
      ensures channels == [] && optOuts == map[]
    {
      channels, optOuts := [], map[];
    }

    /** The rows, beside what claims and half-done requests there are. */
    function View(claims: seq<Claim>, saves: seq<Save>, lifting: multiset<Address>): State
      reads this
    {
      State(channels, optOuts, claims, saves, lifting)
    }

    /** Decides a request and takes the claim. */
    method ClaimConfirmation(ch: nat, member: bool, requester: bool, slot: bool, token: Token, now: int,
                             ghost claims: seq<Claim>, ghost saves: seq<Save>, ghost lifting: multiset<Address>)
      returns (decision: Decision, claim: Option<Claim>)
      requires ch < |channels|
      modifies this
      ensures decision == Decide(old(View(claims, saves, lifting)), ch, member, requester, slot)
      ensures claim.Some? <==> decision.Asked?
      ensures View(claims + (if claim.Some? then [claim.value] else []), saves, lifting)
              == Next(old(View(claims, saves, lifting)), Ask(ch, member, requester, slot, token, now))
    {
      var c := channels[ch];
      claim := None;
      if c.verifiedAt.Some? {
        return AlreadyConfirmed, None;
      }
      var optedOut := c.address in optOuts && optOuts[c.address].unsubscribedAt.Some?;
      if optedOut && optOuts[c.address].reaskedAt.Some? {
        return if c.unsubscribedAt.Some? then Unsubscribed else Reasked, None;
      }
      if !optedOut && member {
        channels := channels[ch := c.(verifiedAt := Some(now))];
        return MemberConfirmed, None;
      }
      if !requester {
        return Unverified, None;
      }
      if !slot {
        return Refused, None;
      }
      var asked := c.(confirmationSentAt := Some(now));
      if optedOut {
        asked := asked.(token := token, unsubscribedAt := None, reaskedAt := Some(now));
        optOuts := optOuts[c.address := optOuts[c.address].(reaskedAt := Some(now))];
      }
      channels := channels[ch := asked];
      return Asked(optedOut),
             Some(Claim(ch, c.address, c.confirmationSentAt, c.unsubscribedAt, optedOut, false));
    }

    /** Confirms by link, in two statements that nothing comes between here. The link works a second time too. */
    method ConfirmLink(token: Token, now: int) returns (confirmed: bool)
      modifies this
      ensures var s := old(View([], [], multiset{}));
              var verified := Next(s, Confirm(token, now));
              && View([], [], multiset{})
                 == (if verified.lifting != multiset{} then
                       Next(verified, Lift(s.channels[FindToken(s.channels, token).value].address))
                     else s)
              && confirmed == var i := FindToken(channels, token); i.Some? && channels[i.value].verifiedAt.Some?
    {
      var i := FindToken(channels, token);
      if i.None? || !Confirmable(channels[i.value], now) {
        return i.Some? && channels[i.value].verifiedAt.Some?;
      }
      var a := channels[i.value].address;
      KeepsTokens(channels, i.value, channels[i.value].(verifiedAt := Some(now)), token);
      channels := channels[i.value := channels[i.value].(verifiedAt := Some(now))];
      if a in optOuts {
        optOuts := optOuts[a := optOuts[a].(unsubscribedAt := None)];
      }
      return true;
    }

    /** Verifies the pending channels at a member's address. Returns whether there were any. */
    method VerifyMember(a: Address, now: int) returns (any: bool)
      modifies this`channels
      ensures channels == MemberVerified(old(channels), optOuts, a, now)
      ensures any == AnyMemberConfirmable(old(channels), optOuts, a)
    {
      any := false;
      for i := 0 to |channels|
        invariant |channels| == |old(channels)|
        invariant forall k :: i <= k < |channels| ==> channels[k] == old(channels)[k]
        invariant forall k :: 0 <= k < i ==>
            channels[k] == if MemberConfirmable(optOuts, old(channels)[k], a)
                           then old(channels)[k].(verifiedAt := Some(now)) else old(channels)[k]
        invariant any == AnyMemberConfirmable(old(channels)[..i], optOuts, a)
      {
        assert old(channels)[..i + 1] == old(channels)[..i] + [old(channels)[i]];
        if MemberConfirmable(optOuts, channels[i], a) {
          assert MemberConfirmable(optOuts, old(channels)[..i + 1][i], a);
          channels := channels[i := channels[i].(verifiedAt := Some(now))];
          any := true;
        }
        assert forall k :: 0 <= k < i ==> old(channels)[..i][k] == old(channels)[..i + 1][k];
      }
      assert old(channels)[..|channels|] == old(channels);
    }

    /** Stops every channel at the address and records the opt-out. */
    method OptOutAddress(a: Address, now: int, channelReaskedAt: Option<int>) returns (final: bool)
      modifies this
      ensures View([], [], multiset{}) == WithOptOut(old(View([], [], multiset{})), a, now, channelReaskedAt)
      ensures final == (channelReaskedAt.Some? || ReaskedOf(old(optOuts), a).Some?)
    {
      var kept := if a in optOuts then optOuts[a].reaskedAt else None;
      optOuts := optOuts[a := OptOut(Some(now), kept)];
      var reaskedAt := if channelReaskedAt.Some? then channelReaskedAt else kept;
      for i := 0 to |channels|
        invariant optOuts == old(optOuts)[a := OptOut(Some(now), kept)]
        invariant |channels| == |old(channels)|
        invariant forall k :: i <= k < |channels| ==> channels[k] == old(channels)[k]
        invariant forall k :: 0 <= k < i ==> channels[k] == Stopped(old(channels), a, now, reaskedAt)[k]
      {
        if channels[i].address == a {
          channels := channels[i := channels[i].(verifiedAt := None, unsubscribedAt := Some(now),
                                                 reaskedAt := reaskedAt)];
        }
      }
      return reaskedAt.Some?;
    }
  }
}
