/**
 * What the delivery attempts at one event come to (src/lib/server/notifications/service.ts).
 * Failures are kept as lists here; the stored error message joins them into text.
 */
module Delivery {
  import opened Prelude

  type Id = nat

  datatype Noun = Channels | Subscribers

  /** The texts of at most three failures, with the number of the others. */
  datatype Summary = Summary(shown: seq<string>, more: nat, failed: nat, total: nat, noun: Noun)

  /** The result of one pass over an event's recipients. */
  datatype Round = Round(reached: bool, rejected: seq<Summary>, transient: seq<Summary>, owed: seq<Id>,
                         mailServerDown: bool)

  /** What a later attempt must know of all earlier ones. */
  datatype Progress = Progress(owed: seq<Id>, reached: bool, rejected: seq<Summary>, mailServerDown: bool)

  datatype Final = Sent | Partial | Failed | Suppressed

  datatype Outcome = Outcome(final: Final, errors: seq<Summary>, retry: Option<Progress>)

  datatype SubscriberRound = SubscriberRound(sent: nat, failures: seq<string>, retrying: seq<string>,
                                             mailServerDown: bool)

  const NO_CHANNELS := Round(false, [], [], [], false)

  function Summarize(failures: seq<string>, total: nat, noun: Noun): seq<Summary> {
    if failures == [] then []
    else if |failures| <= 3 then [Summary(failures, 0, |failures|, total, noun)]
    else [Summary(failures[..3], |failures| - 3, |failures|, total, noun)]
  }

  /** One round for channels and subscribers together. No subscriber part leaves the channels' as it is. */
  function WithSubscribers(channels: Round, subscribers: Option<SubscriberRound>): Round {
    match subscribers
    case None => channels
    case Some(s) =>
      var total := s.sent + |s.failures| + |s.retrying|;
      Round(channels.reached || s.sent > 0,
            channels.rejected + Summarize(s.failures, total, Subscribers),
            channels.transient + Summarize(s.retrying, total, Subscribers),
            channels.owed,
            channels.mailServerDown || s.mailServerDown)
  }

  /** An event's outcome after one more round: what it is called if it ends here, and what a retry must know. */
  function Settle(prior: Option<Progress>, round: Round): Outcome {
    var reached := (prior.Some? && prior.value.reached) || round.reached;
    var rejected := (if prior.Some? then prior.value.rejected else []) + round.rejected;
    var errors := rejected + round.transient;
    if errors == [] then Outcome(if reached then Sent else Suppressed, [], None)
    else
      Outcome(if reached then Partial else Failed,
              errors,
              if round.transient != [] then Some(Progress(round.owed, reached, rejected, round.mailServerDown))
              else None)
  }

  // ---------------------------------------------------------------------------------------------
  // The fold over rounds equals one look at the whole history
  // ---------------------------------------------------------------------------------------------

  function AllRejected(rounds: seq<Round>): seq<Summary> {
    if rounds == [] then [] else AllRejected(rounds[..|rounds| - 1]) + rounds[|rounds| - 1].rejected
  }

  ghost predicate AnyReached(rounds: seq<Round>) {
    exists i :: 0 <= i < |rounds| && rounds[i].reached
  }

  /** The outcome of an event whose attempts were `rounds`, with nothing carried between them. */
  ghost function Whole(rounds: seq<Round>): Outcome
    requires rounds != []
  {
    var last := rounds[|rounds| - 1];
    var errors := AllRejected(rounds) + last.transient;
    var final := if errors == [] then (if AnyReached(rounds) then Sent else Suppressed)
                 else if AnyReached(rounds) then Partial else Failed;
    Outcome(final, errors,
            if last.transient != [] then
              Some(Progress(last.owed, AnyReached(rounds), AllRejected(rounds), last.mailServerDown))
            else None)
  }

  /** An attempt follows another only if the one before it left something to retry. */
  predicate Continues(rounds: seq<Round>) {
    forall i :: 0 <= i < |rounds| - 1 ==> rounds[i].transient != []
  }

  /** What is carried into the next attempt. */
  ghost function Carried(rounds: seq<Round>): Option<Progress> {
    if rounds == [] then None else Whole(rounds).retry
  }

  lemma {:induction false} FoldIsWhole(rounds: seq<Round>, round: Round)
    requires Continues(rounds + [round])
    ensures Settle(Carried(rounds), round) == Whole(rounds + [round])
  {
    var all := rounds + [round];
    assert all[..|rounds|] == rounds;
    if rounds != [] {
      assert all[|rounds| - 1] == rounds[|rounds| - 1];
      assert Carried(rounds).Some?;
    }
    assert AnyReached(all) <==> AnyReached(rounds) || round.reached by {
      if round.reached {
        assert all[|rounds|].reached;
      }
      if i :| 0 <= i < |rounds| && rounds[i].reached {
        assert all[i].reached;
      }
    }
  }

  /** The outcome after each attempt in turn, knowing only what the one before it carried over. */
  function Folded(rounds: seq<Round>): Outcome
    requires rounds != []
  {
    var n := |rounds| - 1;
    Settle(if n == 0 then None else Folded(rounds[..n]).retry, rounds[n])
  }

  /**
   * Round by round, each knowing only what the one before carried over, an event ends with the outcome
   * of its whole history: everything ever rejected, in order, the last round's transient failures, and
   * a partial success if any round reached anyone.
   */
  lemma {:induction false} FoldEqualsWhole(rounds: seq<Round>)
    requires rounds != [] && Continues(rounds)
    ensures Folded(rounds) == Whole(rounds)
  {
    var n := |rounds| - 1;
    assert rounds == rounds[..n] + [rounds[n]];
    if n > 0 { FoldEqualsWhole(rounds[..n]); }
    FoldIsWhole(rounds[..n], rounds[n]);
  }

  /**
   * A retry that exits before any round, such as for a monitor whose channels were all disabled
   * meanwhile, reports its event suppressed. That is what the whole history says exactly when no
   * earlier round reached anyone and none was rejected for good.
   */
  lemma {:induction false} ExitTellsTheHistoryExactlyWhen(rounds: seq<Round>)
    requires rounds != [] && rounds[|rounds| - 1].transient != [] && Continues(rounds)
    ensures Folded(rounds + [NO_CHANNELS]).final == Suppressed <==> !AnyReached(rounds) && AllRejected(rounds) == []
  {
    var all := rounds + [NO_CHANNELS];
    FoldEqualsWhole(all);
    assert all[..|rounds|] == rounds;
    if i :| 0 <= i < |rounds| && rounds[i].reached { assert all[i].reached; }
  }

  // ---------------------------------------------------------------------------------------------
  // Channels
  // ---------------------------------------------------------------------------------------------

  datatype Channel = Channel(id: Id, webhook: bool)

  datatype SendResult = SendResult(success: bool, error: string, transient: bool, mailServerDown: bool)

  predicate Distinct(channels: seq<Channel>) {
    forall i, j :: 0 <= i < j < |channels| ==> channels[i].id != channels[j].id
  }

  /** Whether an attempt contacts the channel: it is owed, and not a webhook that events overtook. */
  predicate IsDue(prior: Option<Progress>, overtaken: bool, c: Channel) {
    (prior.None? || c.id in prior.value.owed) && !(overtaken && c.webhook)
  }

  function Due(channels: seq<Channel>, prior: Option<Progress>, overtaken: bool): seq<Channel> {
    if channels == [] then []
    else
      var rest := Due(channels[..|channels| - 1], prior, overtaken);
      var c := channels[|channels| - 1];
      if IsDue(prior, overtaken, c) then rest + [c] else rest
  }

  predicate MayPass(r: SendResult) { !r.success && r.transient }

  predicate FinallyFailed(r: SendResult) { !r.success && !r.transient }

  function Errors(due: seq<Channel>, results: Channel -> SendResult, mayPass: bool): seq<string> {
    if due == [] then []
    else
      var c := due[|due| - 1];
      var rest := Errors(due[..|due| - 1], results, mayPass);
      if !results(c).success && results(c).transient == mayPass then rest + [results(c).error] else rest
  }

  function Owed(due: seq<Channel>, results: Channel -> SendResult): seq<Id> {
    if due == [] then []
    else
      var c := due[|due| - 1];
      var rest := Owed(due[..|due| - 1], results);
      if MayPass(results(c)) then rest + [c.id] else rest
  }

  predicate MailServerFailed(due: seq<Channel>, results: Channel -> SendResult) {
    exists i :: 0 <= i < |due| && !results(due[i]).success && results(due[i]).mailServerDown
  }

  predicate AnySuccess(due: seq<Channel>, results: Channel -> SendResult) {
    exists i :: 0 <= i < |due| && results(due[i]).success
  }

  /** The round of one fan-out: someone was reached unless every channel that was due failed. */
  function Fanned(due: seq<Channel>, results: Channel -> SendResult): Round {
    Round(AnySuccess(due, results),
          Summarize(Errors(due, results, false), |due|, Channels),
          Summarize(Errors(due, results, true), |due|, Channels),
          Owed(due, results),
          MailServerFailed(due, results))
  }

  /** What one more channel's result adds. */
  lemma {:induction false} OneMoreSent(due: seq<Channel>, i: nat, results: Channel -> SendResult)
    requires i < |due|
    ensures var r := results(due[i]);
            && Errors(due[..i + 1], results, false)
               == Errors(due[..i], results, false) + (if FinallyFailed(r) then [r.error] else [])
            && Errors(due[..i + 1], results, true)
               == Errors(due[..i], results, true) + (if MayPass(r) then [r.error] else [])
            && Owed(due[..i + 1], results) == Owed(due[..i], results) + (if MayPass(r) then [due[i].id] else [])
            && (MailServerFailed(due[..i + 1], results) <==>
                  MailServerFailed(due[..i], results) || (!r.success && r.mailServerDown))
            && (AnySuccess(due[..i + 1], results) <==> AnySuccess(due[..i], results) || r.success)
  {
    var more := due[..i + 1];
    assert more[..i] == due[..i] && more[i] == due[i];
    forall k | 0 <= k < i ensures more[k] == due[..i][k] {}
  }

  lemma {:induction false} DueMembers(channels: seq<Channel>, prior: Option<Progress>, overtaken: bool, c: Channel)
    ensures c in Due(channels, prior, overtaken) <==> c in channels && IsDue(prior, overtaken, c)
  {
    if channels != [] {
      DueMembers(channels[..|channels| - 1], prior, overtaken, c);
      assert channels == channels[..|channels| - 1] + [channels[|channels| - 1]];
    }
  }

  lemma {:induction false} OwedMembers(due: seq<Channel>, results: Channel -> SendResult, id: Id)
    ensures id in Owed(due, results) <==> exists c :: c in due && c.id == id && MayPass(results(c))
  {
    if due != [] {
      var n := |due| - 1;
      OwedMembers(due[..n], results, id);
      assert due == due[..n] + [due[n]];
    }
  }

  lemma {:induction false} ErrorsTell(due: seq<Channel>, results: Channel -> SendResult, mayPass: bool)
    ensures Errors(due, results, mayPass) != []
            <==> exists c :: c in due && !results(c).success && results(c).transient == mayPass
  {
    if due != [] {
      var n := |due| - 1;
      ErrorsTell(due[..n], results, mayPass);
      assert due == due[..n] + [due[n]];
    }
  }

  lemma {:induction false} AnyTell(due: seq<Channel>, results: Channel -> SendResult)
    ensures AnySuccess(due, results) <==> exists c :: c in due && results(c).success
    ensures MailServerFailed(due, results) <==> exists c :: c in due && !results(c).success && results(c).mailServerDown
  {
    if c :| c in due && results(c).success { var i :| 0 <= i < |due| && due[i] == c; }
    if c :| c in due && !results(c).success && results(c).mailServerDown { var i :| 0 <= i < |due| && due[i] == c; }
  }

  /** What one fan-out comes to, told by the channels that are due and how their sends went. */
  lemma {:induction false} FannedTells(channels: seq<Channel>, prior: Option<Progress>, overtaken: bool,
                                       results: Channel -> SendResult)
    ensures var round := Fanned(Due(channels, prior, overtaken), results);
            var due := (c: Channel) =>
              c in channels && (prior.None? || c.id in prior.value.owed) && !(overtaken && c.webhook);
            && (round.reached <==> exists c :: due(c) && results(c).success)
            && (round.rejected != [] <==> exists c :: due(c) && !results(c).success && !results(c).transient)
            && (round.transient != [] <==> exists c :: due(c) && !results(c).success && results(c).transient)
            && (forall id :: id in round.owed <==>
                  exists c :: due(c) && c.id == id && !results(c).success && results(c).transient)
            && (round.mailServerDown <==> exists c :: due(c) && !results(c).success && results(c).mailServerDown)
  {
    var contacted := Due(channels, prior, overtaken);
    forall c: Channel ensures c in contacted <==> c in channels && IsDue(prior, overtaken, c) {
      DueMembers(channels, prior, overtaken, c);
    }
    ErrorsTell(contacted, results, false);
    ErrorsTell(contacted, results, true);
    AnyTell(contacted, results);
    forall id
      ensures id in Owed(contacted, results) <==> exists c :: c in contacted && c.id == id && MayPass(results(c))
    {
      OwedMembers(contacted, results, id);
    }
  }

  /** One summary, unless nothing failed: the first three texts, and how many more there were. */
  lemma {:induction false} SummaryShowsThree(failures: seq<string>, total: nat, noun: Noun)
    ensures var all := Summarize(failures, total, noun);
            && (failures == [] <==> all == [])
            && (failures != [] ==>
                  && |all| == 1 && all[0].failed == |failures| && all[0].total == total && all[0].noun == noun
                  && |all[0].shown| + all[0].more == |failures| && all[0].shown <= failures
                  && (|failures| <= 3 ==> all[0].more == 0) && (|failures| > 3 ==> |all[0].shown| == 3))
  {}

  lemma {:induction false} OneMoreMember(due: seq<Channel>, p: Channel -> bool)
    requires Distinct(due) && due != []
    ensures |set c | c in due && p(c)|
            == |set c | c in due[..|due| - 1] && p(c)| + if p(due[|due| - 1]) then 1 else 0
  {
    var init, last := due[..|due| - 1], due[|due| - 1];
    assert due == init + [last];
    assert last !in init;
    assert (set c | c in due && p(c)) == (set c | c in init && p(c)) + if p(last) then {last} else {};
  }

  lemma {:induction false} ErrorsCount(due: seq<Channel>, results: Channel -> SendResult, mayPass: bool,
                                       p: Channel -> bool)
    requires Distinct(due) && forall c :: p(c) <==> !results(c).success && results(c).transient == mayPass
    ensures |Errors(due, results, mayPass)| == |set c | c in due && p(c)|
  {
    if due != [] {
      ErrorsCount(due[..|due| - 1], results, mayPass, p);
      OneMoreMember(due, p);
    }
  }

  lemma {:induction false} DueIsDistinct(channels: seq<Channel>, prior: Option<Progress>, overtaken: bool)
    requires Distinct(channels)
    ensures Distinct(Due(channels, prior, overtaken))
  {
    if channels != [] {
      var init, last := channels[..|channels| - 1], channels[|channels| - 1];
      DueIsDistinct(init, prior, overtaken);
      var rest := Due(init, prior, overtaken);
      forall i | 0 <= i < |rest| ensures rest[i].id != last.id {
        DueMembers(init, prior, overtaken, rest[i]);
        assert rest[i] in init;
      }
    }
  }

  lemma {:induction false} DistinctCount(channels: seq<Channel>)
    requires Distinct(channels)
    ensures |set c | c in channels| == |channels|
  {
    if channels != [] {
      var init, last := channels[..|channels| - 1], channels[|channels| - 1];
      DistinctCount(init);
      assert channels == init + [last];
      assert (set c | c in channels) == (set c | c in init) + {last};
      assert last !in init;
    }
  }

  /** The channels an attempt is to contact. */
  ghost function DueSet(channels: seq<Channel>, prior: Option<Progress>, overtaken: bool): set<Channel> {
    set c | c in channels && (prior.None? || c.id in prior.value.owed) && !(overtaken && c.webhook)
  }

  /** Those of them whose send failed, in a way that may pass or not. */
  ghost function FailedSet(due: set<Channel>, results: Channel -> SendResult, mayPass: bool): set<Channel> {
    set c | c in due && !results(c).success && (results(c).transient <==> mayPass)
  }

  lemma {:induction false} DueIsTheSet(channels: seq<Channel>, prior: Option<Progress>, overtaken: bool)
    requires Distinct(channels)
    ensures var contacted := Due(channels, prior, overtaken);
            Distinct(contacted) && (set c | c in contacted) == DueSet(channels, prior, overtaken)
  {
    DueIsDistinct(channels, prior, overtaken);
    forall c: Channel ensures c in Due(channels, prior, overtaken) <==> c in DueSet(channels, prior, overtaken) {
      DueMembers(channels, prior, overtaken, c);
    }
  }

  lemma {:induction false} ErrorsCountIn(contacted: seq<Channel>, due: set<Channel>, results: Channel -> SendResult,
                                         mayPass: bool)
    requires Distinct(contacted) && due == set c | c in contacted
    ensures |Errors(contacted, results, mayPass)|
            == |FailedSet(due, results, mayPass)|
  {
    var p := (c: Channel) => !results(c).success && results(c).transient == mayPass;
    ErrorsCount(contacted, results, mayPass, p);
    assert FailedSet(due, results, mayPass) == set c | c in contacted && p(c);
  }

  /** A summary's numbers are those of the channels: how many failed so, of how many contacted. */
  lemma {:induction false} SummariesCountChannels(channels: seq<Channel>, prior: Option<Progress>, overtaken: bool,
                                                  results: Channel -> SendResult)
    requires Distinct(channels)
    ensures var round := Fanned(Due(channels, prior, overtaken), results);
            var due := DueSet(channels, prior, overtaken);
            && (round.rejected != [] ==>
                  && round.rejected[0].failed == |FailedSet(due, results, false)|
                  && round.rejected[0].total == |due| && round.rejected[0].noun == Channels)
            && (round.transient != [] ==>
                  && round.transient[0].failed == |FailedSet(due, results, true)|
                  && round.transient[0].total == |due| && round.transient[0].noun == Channels)
  {
    var contacted, due := Due(channels, prior, overtaken), DueSet(channels, prior, overtaken);
    DueIsTheSet(channels, prior, overtaken);
    ErrorsCountIn(contacted, due, results, false);
    ErrorsCountIn(contacted, due, results, true);
    DistinctCount(contacted);
    SummaryShowsThree(Errors(contacted, results, false), |contacted|, Channels);
    SummaryShowsThree(Errors(contacted, results, true), |contacted|, Channels);
  }

  method FanOut(channels: seq<Channel>, prior: Option<Progress>, overtaken: bool, results: Channel -> SendResult)
    returns (round: Round)
    ensures round == Fanned(Due(channels, prior, overtaken), results)
    ensures var due := (c: Channel) =>
              c in channels && (prior.None? || c.id in prior.value.owed) && !(overtaken && c.webhook);
            && (round.reached <==> exists c :: due(c) && results(c).success)
            && (round.rejected != [] <==> exists c :: due(c) && !results(c).success && !results(c).transient)
            && (round.transient != [] <==> exists c :: due(c) && !results(c).success && results(c).transient)
            && (forall id :: id in round.owed <==>
                  exists c :: due(c) && c.id == id && !results(c).success && results(c).transient)
            && (round.mailServerDown <==> exists c :: due(c) && !results(c).success && results(c).mailServerDown)
  {
    var due := Due(channels, prior, overtaken);
    FannedTells(channels, prior, overtaken, results);
    var rejected: seq<string>, transient: seq<string>, owed: seq<Id> := [], [], [];
    var mailServerDown := false;
    for i := 0 to |due|
      invariant rejected == Errors(due[..i], results, false)
      invariant transient == Errors(due[..i], results, true)
      invariant owed == Owed(due[..i], results)
      invariant mailServerDown <==> MailServerFailed(due[..i], results)
      invariant |rejected| + |transient| <= i
      invariant |rejected| + |transient| < i <==> AnySuccess(due[..i], results)
    {
      OneMoreSent(due, i, results);
      var r := results(due[i]);
      if !r.success {
        mailServerDown := mailServerDown || r.mailServerDown;
        if r.transient {
          transient := transient + [r.error];
          owed := owed + [due[i].id];
        } else {
          rejected := rejected + [r.error];
        }
      }
    }
    assert due[..|due|] == due;
    round := Round(|rejected| + |transient| < |due|,
                   Summarize(rejected, |due|, Channels), Summarize(transient, |due|, Channels),
                   owed, mailServerDown);
  }

  /**
   * One attempt at an event: the channels eligible at its time, how each send went, and what came of
   * the subscribers, if any were due an email.
   */
  datatype Attempt = Attempt(channels: seq<Channel>, overtaken: bool, results: Channel -> SendResult,
                             subscribers: Option<SubscriberRound>)

  /** The round an attempt makes, knowing what the one before it carried over. */
  function RoundOf(attempt: Attempt, prior: Option<Progress>): Round {
    WithSubscribers(Fanned(Due(attempt.channels, prior, attempt.overtaken), attempt.results), attempt.subscribers)
  }

  /** The round of an attempt, subscribers included, told by who was due what and how the sends went. */
  lemma {:induction false} RoundTells(attempt: Attempt, prior: Option<Progress>)
    ensures var round := RoundOf(attempt, prior);
            var due := (c: Channel) =>
              && c in attempt.channels && (prior.None? || c.id in prior.value.owed)
              && !(attempt.overtaken && c.webhook);
            var sub, results := attempt.subscribers, attempt.results;
            && (round.reached <==> (sub.Some? && sub.value.sent > 0) || exists c :: due(c) && results(c).success)
            && (round.rejected != [] <==>
                  || (sub.Some? && sub.value.failures != [])
                  || exists c :: due(c) && !results(c).success && !results(c).transient)
            && (round.transient != [] <==>
                  || (sub.Some? && sub.value.retrying != [])
                  || exists c :: due(c) && !results(c).success && results(c).transient)
            && (forall id :: id in round.owed <==>
                  exists c :: due(c) && c.id == id && !results(c).success && results(c).transient)
            && (round.mailServerDown <==>
                  || (sub.Some? && sub.value.mailServerDown)
                  || exists c :: due(c) && !results(c).success && results(c).mailServerDown)
  {
    FannedTells(attempt.channels, prior, attempt.overtaken, attempt.results);
  }

  /** The channels an attempt contacts after `rounds`. */
  ghost function Contacted(attempt: Attempt, rounds: seq<Round>): seq<Channel> {
    Due(attempt.channels, Carried(rounds), attempt.overtaken)
  }

  ghost predicate Contacts(attempt: Attempt, rounds: seq<Round>, id: Id) {
    exists c :: c in Contacted(attempt, rounds) && c.id == id
  }

  /** The rounds that attempts make, each fanning out to what the rounds before it left owed. */
  ghost function RoundsOf(attempts: seq<Attempt>): (rounds: seq<Round>)
    ensures |rounds| == |attempts|
  {
    if attempts == [] then []
    else
      var rounds := RoundsOf(attempts[..|attempts| - 1]);
      var last := attempts[|attempts| - 1];
      rounds + [RoundOf(last, Carried(rounds))]
  }

  /** Every attempt but the last left something to retry, and no channel is listed twice. */
  ghost predicate Chained(attempts: seq<Attempt>) {
    && Continues(RoundsOf(attempts))
    && forall i :: 0 <= i < |attempts| ==> Distinct(attempts[i].channels)
  }

  lemma {:induction false} ChainedPrefix(attempts: seq<Attempt>)
    requires Chained(attempts) && attempts != []
    ensures Chained(attempts[..|attempts| - 1])
    ensures RoundsOf(attempts)[..|attempts| - 1] == RoundsOf(attempts[..|attempts| - 1])
  {}

  lemma {:induction false} ContactedWasOwed(attempts: seq<Attempt>, id: Id)
    requires |attempts| >= 2 && Chained(attempts)
    requires Contacts(attempts[|attempts| - 1], RoundsOf(attempts[..|attempts| - 1]), id)
    ensures id in RoundsOf(attempts[..|attempts| - 1])[|attempts| - 2].owed
  {
    var next, rounds := attempts[|attempts| - 1], RoundsOf(attempts[..|attempts| - 1]);
    ChainedPrefix(attempts);
    assert RoundsOf(attempts)[|attempts| - 2] == rounds[|attempts| - 2];
    var c :| c in Contacted(next, rounds) && c.id == id;
    DueMembers(next.channels, Carried(rounds), next.overtaken, c);
  }

  lemma {:induction false} OwedWasContacted(attempts: seq<Attempt>, id: Id)
    requires attempts != [] && id in RoundsOf(attempts)[|attempts| - 1].owed
    ensures Contacts(attempts[|attempts| - 1], RoundsOf(attempts[..|attempts| - 1]), id)
  {
    var last := attempts[|attempts| - 1];
    OwedMembers(Contacted(last, RoundsOf(attempts[..|attempts| - 1])), last.results, id);
  }

  /** Owed channels only shrink from one attempt to the next. */
  lemma {:induction false} OwedShrinks(attempts: seq<Attempt>, id: Id)
    requires |attempts| >= 2 && Chained(attempts)
    requires id in RoundsOf(attempts)[|attempts| - 1].owed
    ensures id in RoundsOf(attempts[..|attempts| - 1])[|attempts| - 2].owed
  {
    OwedWasContacted(attempts, id);
    ContactedWasOwed(attempts, id);
  }

  lemma {:induction false} NotOwedOnceSettled(attempts: seq<Attempt>, c: Channel)
    requires Chained(attempts) && attempts != []
    requires var last := attempts[|attempts| - 1];
             c in Contacted(last, RoundsOf(attempts[..|attempts| - 1])) && !MayPass(last.results(c))
    ensures c.id !in RoundsOf(attempts)[|attempts| - 1].owed
  {
    var last := attempts[|attempts| - 1];
    var before := RoundsOf(attempts[..|attempts| - 1]);
    var due := Contacted(last, before);
    OwedMembers(due, last.results, c.id);
    forall d | d in due && d.id == c.id ensures d == c {
      DueMembers(last.channels, Carried(before), last.overtaken, c);
      DueMembers(last.channels, Carried(before), last.overtaken, d);
    }
  }

  /** Whether attempt `i` ended its business with the channel: delivered, or rejected for good. */
  ghost predicate SettledAt(attempts: seq<Attempt>, i: nat, c: Channel)
    requires i < |attempts|
  {
    c in Contacted(attempts[i], RoundsOf(attempts[..i])) && !MayPass(attempts[i].results(c))
  }

  lemma {:induction false} SettledInPrefix(attempts: seq<Attempt>, n: nat, i: nat, c: Channel)
    requires i < n <= |attempts| && SettledAt(attempts, i, c)
    ensures SettledAt(attempts[..n], i, c)
  {
    assert attempts[..n][..i] == attempts[..i];
  }

  lemma {:induction false} NotOwedStaysSo(attempts: seq<Attempt>, id: Id)
    requires |attempts| >= 2 && Chained(attempts)
    requires id !in RoundsOf(attempts[..|attempts| - 1])[|attempts| - 2].owed
    ensures id !in RoundsOf(attempts)[|attempts| - 1].owed
  {
    if id in RoundsOf(attempts)[|attempts| - 1].owed {
      OwedShrinks(attempts, id);
    }
  }

  lemma {:induction false} NeverOwedAgain(attempts: seq<Attempt>, i: nat, c: Channel)
    requires Chained(attempts) && i < |attempts| && SettledAt(attempts, i, c)
    ensures c.id !in RoundsOf(attempts)[|attempts| - 1].owed
    decreases |attempts|
  {
    var n := |attempts| - 1;
    if i == n {
      NotOwedOnceSettled(attempts, c);
    } else {
      ChainedPrefix(attempts);
      SettledInPrefix(attempts, n, i, c);
      NeverOwedAgain(attempts[..n], i, c);
      NotOwedStaysSo(attempts, c.id);
    }
  }

  /** A channel that took the message, or rejected it for good, is never contacted again. */
  lemma {:induction false} SettledChannelsAreLeftAlone(attempts: seq<Attempt>, i: nat, c: Channel)
    requires Chained(attempts) && i < |attempts| - 1 && SettledAt(attempts, i, c)
    ensures !Contacts(attempts[|attempts| - 1], RoundsOf(attempts[..|attempts| - 1]), c.id)
  {
    var n := |attempts| - 1;
    ChainedPrefix(attempts);
    SettledInPrefix(attempts, n, i, c);
    NeverOwedAgain(attempts[..n], i, c);
    if Contacts(attempts[n], RoundsOf(attempts[..n]), c.id) {
      ContactedWasOwed(attempts, c.id);
    }
  }
}
