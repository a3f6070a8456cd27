/**
 * Emailing an incident event to status page subscribers, each claimed before the send so that
 * concurrent and repeated dispatches of the event share the work
 * (src/lib/server/notifications/subscribers.ts).
 */
module Subscribers {
  import opened Prelude
  import D = Delivery

  type Subscriber = nat

  /** Claims are inserted and deleted this many rows at a time. */
  const CLAIM_CHUNK := 1000

  datatype Mail = Accepted | Rejected | Transient(mailServerDown: bool)

  /**
   * One dispatch of the event. `asked` recipients have been offered to the claim table and `due` are
   * the ones it claimed, in order. `next` of those have been tried, and `deleted` of the released
   * claims are gone from the table.
   */
  datatype Dispatch = Dispatch(
    recipients: seq<Subscriber>, asked: nat, due: seq<Subscriber>, next: nat,
    sent: seq<Subscriber>, failed: seq<Subscriber>, retrying: seq<Subscriber>, down: bool, deleted: nat)
  {
    /** What goes back: the failures that may pass, and all that are unsent once the server is found down. */
    function Released(): seq<Subscriber>
      requires next <= |due|
    {
      retrying + if down then due[next..] else []
    }

    predicate Claiming() { asked < |recipients| }

    predicate Sending() { asked == |recipients| && !down && next < |due| }

    predicate Sent() { asked == |recipients| && (down || next == |due|) }

    predicate Finished()
      requires next <= |due|
    {
      Sent() && deleted == |Released()|
    }
  }

  /** The event's rows of the claim table, and its dispatches. */
  datatype State = State(table: set<Subscriber>, dispatches: seq<Dispatch>)

  function Members(s: seq<Subscriber>): set<Subscriber> {
    set x | x in s
  }

  function Unclaimed(chunk: seq<Subscriber>, table: set<Subscriber>): seq<Subscriber> {
    if chunk == [] then []
    else
      var rest := Unclaimed(chunk[..|chunk| - 1], table);
      var last := chunk[|chunk| - 1];
      if last in table || last in rest then rest else rest + [last]
  }

  /** Inserting a chunk claims the recipients the table does not hold yet. */
  function AfterClaim(d: Dispatch, table: set<Subscriber>): Dispatch
    requires d.Claiming()
  {
    var upTo := Min(d.asked + CLAIM_CHUNK, |d.recipients|);
    d.(asked := upTo, due := d.due + Unclaimed(d.recipients[d.asked..upTo], table))
  }

  function AfterSend(d: Dispatch, mail: Mail): Dispatch
    requires d.Sending()
  {
    var r, tried := d.due[d.next], d.(next := d.next + 1);
    match mail
    case Accepted => tried.(sent := d.sent + [r])
    case Rejected => tried.(failed := d.failed + [r])
    case Transient(mailServerDown) => tried.(retrying := d.retrying + [r], down := mailServerDown)
  }

  function DeletedTo(d: Dispatch): nat
    requires d.next <= |d.due|
  {
    Min(d.deleted + CLAIM_CHUNK, |d.Released()|)
  }

  function DeletedChunk(d: Dispatch): seq<Subscriber>
    requires d.next <= |d.due| && d.deleted <= |d.Released()|
  {
    d.Released()[d.deleted..DeletedTo(d)]
  }

  // ---------------------------------------------------------------------------------------------
  // Interleavings
  // ---------------------------------------------------------------------------------------------

  /** Each database statement and each send is one step. A dispatch that dies takes no more of them. */
  datatype Step =
    | Begin(recipients: seq<Subscriber>)
    | ClaimChunk(d: nat)
    | Send(d: nat, mail: Mail)
    | DeleteChunk(d: nat)

  predicate Enabled(s: State, step: Step) {
    match step
    case Begin(_) => true
    case ClaimChunk(d) => d < |s.dispatches| && s.dispatches[d].Claiming()
    case Send(d, _) => d < |s.dispatches| && s.dispatches[d].Sending()
    case DeleteChunk(d) =>
      d < |s.dispatches| && s.dispatches[d].Sent()
      && s.dispatches[d].next <= |s.dispatches[d].due| && s.dispatches[d].deleted < |s.dispatches[d].Released()|
  }

  function Next(s: State, step: Step): State {
    if !Enabled(s, step) then s
    else match step
      case Begin(recipients) =>
        s.(dispatches := s.dispatches + [Dispatch(recipients, 0, [], 0, [], [], [], false, 0)])
      case ClaimChunk(d) =>
        var after := AfterClaim(s.dispatches[d], s.table);
        State(s.table + Members(after.due[|s.dispatches[d].due|..]), s.dispatches[d := after])
      case Send(d, mail) => s.(dispatches := s.dispatches[d := AfterSend(s.dispatches[d], mail)])
      case DeleteChunk(d) =>
        var mine := s.dispatches[d];
        State(s.table - Members(DeletedChunk(mine)), s.dispatches[d := mine.(deleted := DeletedTo(mine))])
  }

  function Run(steps: seq<Step>): State {
    if steps == [] then State({}, []) else Next(Run(steps[..|steps| - 1]), steps[|steps| - 1])
  }

  // ---------------------------------------------------------------------------------------------
  // The invariant
  // ---------------------------------------------------------------------------------------------

  ghost predicate Distinct(s: seq<Subscriber>) {
    forall i, j :: 0 <= i < j < |s| ==> s[i] != s[j]
  }

  /** Everyone tried so far ended in exactly one list, and claims are given back only after the sends. */
  ghost predicate DispatchOk(d: Dispatch) {
    && d.asked <= |d.recipients| && d.next <= |d.due|
    && Distinct(d.due)
    && multiset(d.due[..d.next]) == multiset(d.sent) + multiset(d.failed) + multiset(d.retrying)
    && (d.Claiming() ==> d.next == 0 && !d.down)
    && (d.down ==> d.retrying != [])
    && d.deleted <= |d.Released()|
    && (d.deleted > 0 ==> d.Sent())
  }

  /** The subscribers whose claims belong to the dispatch. */
  ghost function Own(d: Dispatch): set<Subscriber>
    requires DispatchOk(d)
  {
    Members(d.due) - Members(d.Released()[..d.deleted])
  }

  ghost predicate Inv(s: State) {
    && (forall i :: 0 <= i < |s.dispatches| ==> DispatchOk(s.dispatches[i]) && Own(s.dispatches[i]) <= s.table)
    && (forall i, j :: 0 <= i < j < |s.dispatches| ==> Own(s.dispatches[i]) !! Own(s.dispatches[j]))
  }

  /** Everyone claimed is in exactly one of the four lists. */
  lemma {:induction false} EveryoneOnce(d: Dispatch)
    requires DispatchOk(d)
    ensures multiset(d.due)
            == multiset(d.sent) + multiset(d.failed) + multiset(d.Released())
               + if d.down then multiset{} else multiset(d.due[d.next..])
    ensures forall x :: multiset(d.due)[x] <= 1
  {
    assert d.due == d.due[..d.next] + d.due[d.next..];
    forall x ensures multiset(d.due)[x] <= 1 {
      DistinctCounts(d.due, x);
    }
  }

  lemma {:induction false} DistinctCounts(s: seq<Subscriber>, x: Subscriber)
    requires Distinct(s)
    ensures multiset(s)[x] <= 1
  {
    if s != [] {
      var init := s[..|s| - 1];
      assert s == init + [s[|s| - 1]];
      DistinctCounts(init, x);
      assert s[|s| - 1] !in init;
    }
  }

  lemma {:induction false} CountsAreDistinct(s: seq<Subscriber>)
    requires forall x :: multiset(s)[x] <= 1
    ensures Distinct(s)
  {
    if s != [] {
      var init, last := s[..|s| - 1], s[|s| - 1];
      assert s == init + [last];
      assert multiset(s) == multiset(init) + multiset{last};
      forall x ensures multiset(init)[x] <= 1 {
        assert multiset(s)[x] >= multiset(init)[x];
      }
      CountsAreDistinct(init);
      assert multiset(s)[last] <= 1 && multiset(init)[last] == 0;
      forall i | 0 <= i < |init| ensures s[i] != last {
        assert init[i] in multiset(init);
      }
    }
  }

  lemma {:induction false} UnclaimedIsNew(chunk: seq<Subscriber>, table: set<Subscriber>)
    ensures Distinct(Unclaimed(chunk, table))
    ensures Members(Unclaimed(chunk, table)) == Members(chunk) - table
  {
    if chunk != [] {
      UnclaimedIsNew(chunk[..|chunk| - 1], table);
      assert chunk == chunk[..|chunk| - 1] + [chunk[|chunk| - 1]];
      var rest := Unclaimed(chunk[..|chunk| - 1], table);
      assert forall x :: x in rest <==> x in Members(rest);
    }
  }

  /** An invariant of every dispatch by itself and of each pair survives a change to one dispatch. */
  lemma {:induction false} ChangedOne(s: State, d: nat, after: Dispatch, table: set<Subscriber>)
    requires Inv(s) && d < |s.dispatches| && DispatchOk(after)
    requires Own(after) <= table
    requires forall i :: 0 <= i < |s.dispatches| && i != d ==> Own(s.dispatches[i]) <= table
    requires forall i :: 0 <= i < |s.dispatches| && i != d ==> Own(s.dispatches[i]) !! Own(after)
    ensures Inv(State(table, s.dispatches[d := after]))
  {}

  lemma {:induction false} ClaimKeepsInv(s: State, d: nat)
    requires Inv(s) && Enabled(s, ClaimChunk(d))
    ensures Inv(Next(s, ClaimChunk(d)))
  {
    var before := s.dispatches[d];
    var after := AfterClaim(before, s.table);
    var upTo := Min(before.asked + CLAIM_CHUNK, |before.recipients|);
    var added := Unclaimed(before.recipients[before.asked..upTo], s.table);
    UnclaimedIsNew(before.recipients[before.asked..upTo], s.table);
    assert after.due[|before.due|..] == added;
    assert Own(before) == Members(before.due);
    DisjointConcat(before.due, added, s.table);
    assert Own(after) == Own(before) + Members(added);
    ChangedOne(s, d, after, s.table + Members(added));
  }

  lemma {:induction false} SendCounts(d: Dispatch, mail: Mail)
    requires DispatchOk(d) && d.Sending()
    ensures var after := AfterSend(d, mail);
            multiset(after.due[..after.next])
            == multiset(after.sent) + multiset(after.failed) + multiset(after.retrying)
  {
    assert d.due[..d.next + 1] == d.due[..d.next] + [d.due[d.next]];
  }

  lemma {:induction false} SendIsOk(d: Dispatch, mail: Mail)
    requires DispatchOk(d) && d.Sending()
    ensures DispatchOk(AfterSend(d, mail)) && Own(AfterSend(d, mail)) == Own(d)
  {
    SendCounts(d, mail);
    assert d.deleted == 0;
  }

  lemma {:induction false} SendKeepsInv(s: State, d: nat, mail: Mail)
    requires Inv(s) && Enabled(s, Send(d, mail))
    ensures Inv(Next(s, Send(d, mail)))
  {
    SendIsOk(s.dispatches[d], mail);
    ChangedOne(s, d, AfterSend(s.dispatches[d], mail), s.table);
  }

  lemma {:induction false} ReleasedOnce(d: Dispatch)
    requires DispatchOk(d)
    ensures Distinct(d.Released()) && Members(d.Released()) <= Members(d.due)
  {
    var released := d.Released();
    EveryoneOnce(d);
    forall x ensures multiset(released)[x] <= 1 {
      assert multiset(released)[x] <= multiset(d.due)[x];
    }
    CountsAreDistinct(released);
    forall x | x in Members(released) ensures x in Members(d.due) {
      assert x in multiset(released);
      assert x in multiset(d.due);
    }
  }

  lemma {:induction false} SplitMembers(s: seq<Subscriber>, i: nat, j: nat)
    requires Distinct(s) && i <= j <= |s|
    ensures Members(s[..j]) == Members(s[..i]) + Members(s[i..j]) && Members(s[..i]) !! Members(s[i..j])
  {
    assert s[..j] == s[..i] + s[i..j];
  }

  /** A chunk given back was the dispatch's own, and is no longer. */
  lemma {:induction false} DeleteIsOk(d: Dispatch)
    requires DispatchOk(d) && d.Sent() && d.deleted < |d.Released()|
    ensures var after := d.(deleted := DeletedTo(d));
            && DispatchOk(after) && Members(DeletedChunk(d)) <= Own(d)
            && Own(after) == Own(d) - Members(DeletedChunk(d))
  {
    var after := d.(deleted := DeletedTo(d));
    ReleasedOnce(d);
    SplitMembers(d.Released(), d.deleted, after.deleted);
    assert after.Released() == d.Released();
    forall x | x in Members(DeletedChunk(d)) ensures x in Members(d.due) { assert x in Members(d.Released()); }
  }

  lemma {:induction false} DeleteKeepsInv(s: State, d: nat)
    requires Inv(s) && Enabled(s, DeleteChunk(d))
    ensures Inv(Next(s, DeleteChunk(d)))
    ensures DispatchOk(s.dispatches[d]) && Members(DeletedChunk(s.dispatches[d])) <= Own(s.dispatches[d])
  {
    var before := s.dispatches[d];
    DeleteIsOk(before);
    ChangedOne(s, d, before.(deleted := DeletedTo(before)), s.table - Members(DeletedChunk(before)));
  }

  lemma {:induction false} RunsAreSound(steps: seq<Step>)
    ensures Inv(Run(steps))
  {
    if steps != [] {
      RunsAreSound(steps[..|steps| - 1]);
      var s, step := Run(steps[..|steps| - 1]), steps[|steps| - 1];
      if Enabled(s, step) {
        match step {
          case Begin(_) =>
          case ClaimChunk(d) => ClaimKeepsInv(s, d);
          case Send(d, mail) => SendKeepsInv(s, d, mail);
          case DeleteChunk(d) => DeleteKeepsInv(s, d);
        }
      }
    }
  }

  // ---------------------------------------------------------------------------------------------
  // What holds under any interleaving
  // ---------------------------------------------------------------------------------------------

  /** How many of the event's sends to `x` were accepted, in all its dispatches. */
  ghost function AcceptedSends(dispatches: seq<Dispatch>, x: Subscriber): nat {
    if dispatches == [] then 0
    else AcceptedSends(dispatches[..|dispatches| - 1], x) + multiset(dispatches[|dispatches| - 1].sent)[x]
  }

  lemma {:induction false} SentStaysOwned(d: Dispatch, x: Subscriber)
    requires DispatchOk(d)
    ensures multiset(d.sent)[x] <= 1
    ensures x in d.sent ==> x in Own(d)
  {
    EveryoneOnce(d);
    if x in d.sent {
      assert x in multiset(d.sent) && x in multiset(d.due);
      assert x !in multiset(d.Released());
    }
  }

  lemma {:induction false} AcceptedOnceIn(dispatches: seq<Dispatch>, x: Subscriber)
    requires forall i :: 0 <= i < |dispatches| ==> DispatchOk(dispatches[i])
    requires forall i, j :: 0 <= i < j < |dispatches| ==> Own(dispatches[i]) !! Own(dispatches[j])
    ensures AcceptedSends(dispatches, x) <= 1
    ensures AcceptedSends(dispatches, x) == 1 ==> exists i :: 0 <= i < |dispatches| && x in Own(dispatches[i])
  {
    if dispatches != [] {
      var n := |dispatches| - 1;
      var init := dispatches[..n];
      forall i | 0 <= i < n ensures DispatchOk(init[i]) { assert DispatchOk(dispatches[i]); }
      forall i, j | 0 <= i < j < n ensures Own(init[i]) !! Own(init[j]) {
        assert Own(dispatches[i]) !! Own(dispatches[j]);
      }
      AcceptedOnceIn(init, x);
      SentStaysOwned(dispatches[n], x);
      if AcceptedSends(init, x) == 1 {
        var i :| 0 <= i < |init| && x in Own(init[i]);
        assert x in Own(dispatches[i]) && Own(dispatches[i]) !! Own(dispatches[n]);
      }
    }
  }

  /** However dispatches of an event overlap and repeat, nobody gets its email twice. */
  lemma {:induction false} NobodyIsMailedTwice(steps: seq<Step>, x: Subscriber)
    ensures AcceptedSends(Run(steps).dispatches, x) <= 1
  {
    RunsAreSound(steps);
    AcceptedOnceIn(Run(steps).dispatches, x);
  }

  /** A finished dispatch sent to, finally failed or released each subscriber it claimed, exactly once. */
  lemma {:induction false} FinishedRoundsAccountForAll(steps: seq<Step>, d: nat, x: Subscriber)
    requires d < |Run(steps).dispatches|
    requires var mine := Run(steps).dispatches[d]; mine.next <= |mine.due| && mine.Finished() && x in mine.due
    ensures var mine := Run(steps).dispatches[d];
            multiset(mine.sent)[x] + multiset(mine.failed)[x] + multiset(mine.Released())[x] == 1
  {
    RunsAreSound(steps);
    EveryoneOnce(Run(steps).dispatches[d]);
    assert x in multiset(Run(steps).dispatches[d].due);
  }

  /** Giving claims back never takes a claim from another dispatch. */
  lemma {:induction false} ReleasesOwnClaimsOnly(steps: seq<Step>, d: nat, other: nat)
    requires Enabled(Run(steps), DeleteChunk(d)) && other < |Run(steps).dispatches| && other != d
    ensures var s := Run(steps);
            && DispatchOk(s.dispatches[d]) && DispatchOk(s.dispatches[other])
            && Members(DeletedChunk(s.dispatches[d])) <= Own(s.dispatches[d])
            && Members(DeletedChunk(s.dispatches[d])) !! Own(s.dispatches[other])
  {
    RunsAreSound(steps);
    DeleteKeepsInv(Run(steps), d);
    var s := Run(steps);
    if d < other {
      assert Own(s.dispatches[d]) !! Own(s.dispatches[other]);
    } else {
      assert Own(s.dispatches[other]) !! Own(s.dispatches[d]);
    }
  }

  /** What a dispatch reports of itself. Failure texts name the subscriber. */
  function Reported(d: Dispatch, text: Subscriber -> string): D.SubscriberRound {
    D.SubscriberRound(|d.sent|, seq(|d.failed|, i requires 0 <= i < |d.failed| => text(d.failed[i])),
                      seq(|d.retrying|, i requires 0 <= i < |d.retrying| => text(d.retrying[i])), d.down)
  }

  /** If a dispatch gave any claim back, its event owes another attempt. */
  lemma {:induction false} ReleasedClaimsAreRetried(steps: seq<Step>, d: nat, prior: Option<D.Progress>,
                                                    channels: D.Round, text: Subscriber -> string)
    requires d < |Run(steps).dispatches|
    requires var mine := Run(steps).dispatches[d]; mine.next <= |mine.due| && mine.Released() != []
    ensures D.Settle(prior, D.WithSubscribers(channels, Some(Reported(Run(steps).dispatches[d], text)))).retry.Some?
  {
    RunsAreSound(steps);
    var mine := Run(steps).dispatches[d];
    assert DispatchOk(mine);
    assert Reported(mine, text).retrying != [];
  }

  /**
   * A dispatch always has its next thing to do until it is finished: to claim, to send, or to give a claim back. Each
   * brings it further, a thousand rows at a time or one send.
   */
  lemma {:induction false} DispatchesGoOn(steps: seq<Step>, d: nat, mail: Mail)
    requires d < |Run(steps).dispatches|
    ensures var s, mine := Run(steps), Run(steps).dispatches[d];
            && mine.asked <= |mine.recipients| && mine.next <= |mine.due| && mine.deleted <= |mine.Released()|
            && (mine.asked < |mine.recipients| ==>
                  var after := Next(s, ClaimChunk(d)).dispatches[d];
                  after.asked == Min(mine.asked + 1000, |mine.recipients|))
            && (mine.asked == |mine.recipients| && mine.next < |mine.due| && !mine.down ==>
                  Next(s, Send(d, mail)).dispatches[d].next == mine.next + 1)
            && (mine.asked == |mine.recipients| && (mine.down || mine.next == |mine.due|)
                && mine.deleted < |mine.Released()| ==>
                  var after := Next(s, DeleteChunk(d)).dispatches[d];
                  after.deleted == Min(mine.deleted + 1000, |mine.Released()|))
            && (mine.Finished() <==>
                  && mine.asked == |mine.recipients| && (mine.down || mine.next == |mine.due|)
                  && mine.deleted == |mine.Released()|)
  {
    RunsAreSound(steps);
    assert DispatchOk(Run(steps).dispatches[d]);
  }

  /** The dispatches' own claims are all there are. */
  ghost predicate TableIsOwned(s: State)
    requires Inv(s)
  {
    forall x :: x in s.table ==> exists i :: 0 <= i < |s.dispatches| && x in Own(s.dispatches[i])
  }

  /** A step that changes one dispatch, and the table by as much. */
  lemma {:induction false} OwnedByOne(s: State, t: State, d: nat)
    requires Inv(s) && Inv(t) && TableIsOwned(s) && d < |s.dispatches| == |t.dispatches|
    requires t.dispatches == s.dispatches[d := t.dispatches[d]]
    requires t.table <= s.table + Own(t.dispatches[d])
    requires forall x :: x in Own(s.dispatches[d]) - Own(t.dispatches[d]) ==> x !in t.table
    ensures TableIsOwned(t)
  {
    forall x | x in t.table ensures exists i :: 0 <= i < |t.dispatches| && x in Own(t.dispatches[i]) {
      if x !in Own(t.dispatches[d]) {
        var i :| 0 <= i < |s.dispatches| && x in Own(s.dispatches[i]);
        assert i != d;
        assert x in Own(t.dispatches[i]);
      }
    }
  }

  lemma {:induction false} ClaimKeepsOwned(s: State, d: nat)
    requires Inv(s) && TableIsOwned(s) && Enabled(s, ClaimChunk(d)) && Inv(Next(s, ClaimChunk(d)))
    ensures TableIsOwned(Next(s, ClaimChunk(d)))
  {
    var t := Next(s, ClaimChunk(d));
    var mine, after := s.dispatches[d], t.dispatches[d];
    assert DispatchOk(mine) && mine.deleted == 0 && after.deleted == 0;
    assert Own(mine) == Members(mine.due) && Own(after) == Members(after.due);
    var added := after.due[|mine.due|..];
    assert after.due == mine.due + added;
    hide DispatchOk, Own;
    forall x | x in Members(added) ensures x in Members(after.due) { assert x in added; }
    forall x | x in Members(mine.due) ensures x in Members(after.due) { assert x in mine.due; }
    OwnedByOne(s, t, d);
  }

  lemma {:induction false} BeginKeepsOwned(s: State, recipients: seq<Subscriber>)
    requires Inv(s) && TableIsOwned(s) && Inv(Next(s, Begin(recipients)))
    ensures TableIsOwned(Next(s, Begin(recipients)))
  {
    var t := Next(s, Begin(recipients));
    forall x | x in t.table ensures exists i :: 0 <= i < |t.dispatches| && x in Own(t.dispatches[i]) {
      var i :| 0 <= i < |s.dispatches| && x in Own(s.dispatches[i]);
      assert t.dispatches[i] == s.dispatches[i];
    }
  }

  lemma {:induction false} StepKeepsOwned(s: State, step: Step)
    requires Inv(s) && TableIsOwned(s) && Enabled(s, step) && Inv(Next(s, step))
    ensures TableIsOwned(Next(s, step))
  {
    match step
    case Begin(recipients) => BeginKeepsOwned(s, recipients);
    case ClaimChunk(d) => ClaimKeepsOwned(s, d);
    case Send(d, mail) =>
      SendIsOk(s.dispatches[d], mail);
      OwnedByOne(s, Next(s, step), d);
    case DeleteChunk(d) =>
      DeleteIsOk(s.dispatches[d]);
      OwnedByOne(s, Next(s, step), d);
  }

  lemma {:induction false} RunsAreOwned(steps: seq<Step>)
    ensures Inv(Run(steps)) && TableIsOwned(Run(steps))
  {
    RunsAreSound(steps);
    if steps != [] {
      RunsAreOwned(steps[..|steps| - 1]);
      var s, step := Run(steps[..|steps| - 1]), steps[|steps| - 1];
      if Enabled(s, step) { StepKeepsOwned(s, step); }
    }
  }

  /**
   * The claim table holds exactly what some dispatch claimed and did not give back, so whoever a dispatch gave back
   * and no other claimed since can be claimed again.
   */
  lemma {:induction false} ClaimedMeansOwned(steps: seq<Step>, x: Subscriber)
    ensures var s := Run(steps);
            x in s.table <==>
              exists i :: 0 <= i < |s.dispatches| && s.dispatches[i].next <= |s.dispatches[i].due|
                          && s.dispatches[i].deleted <= |s.dispatches[i].Released()| && x in s.dispatches[i].due
                          && x !in s.dispatches[i].Released()[..s.dispatches[i].deleted]
  {
    RunsAreOwned(steps);
    var s := Run(steps);
    if x in s.table {
      var i :| 0 <= i < |s.dispatches| && x in Own(s.dispatches[i]);
      assert DispatchOk(s.dispatches[i]);
    }
    if i :| 0 <= i < |s.dispatches| && s.dispatches[i].next <= |s.dispatches[i].due|
            && s.dispatches[i].deleted <= |s.dispatches[i].Released()| && x in s.dispatches[i].due
            && x !in s.dispatches[i].Released()[..s.dispatches[i].deleted] {
      assert DispatchOk(s.dispatches[i]);
      assert x in Own(s.dispatches[i]);
    }
  }

  // ---------------------------------------------------------------------------------------------
  // One dispatch
  // ---------------------------------------------------------------------------------------------

  class ClaimTable {
    var claimed: set<Subscriber>

    constructor ()
      ensures claimed == {}
    {
      claimed := {};
    }

    /** Inserts a chunk, skipping rows that are already there, and returns the rows it inserted. */
    method InsertNew(chunk: seq<Subscriber>) returns (inserted: seq<Subscriber>)
      modifies this
      ensures inserted == Unclaimed(chunk, old(claimed))
      ensures claimed == old(claimed) + Members(inserted)
    {
      inserted := [];
      for i := 0 to |chunk|
        invariant inserted == Unclaimed(chunk[..i], old(claimed))
        invariant claimed == old(claimed) + Members(inserted)
      {
        assert chunk[..i + 1][..i] == chunk[..i];
        if chunk[i] !in claimed {
          inserted := inserted + [chunk[i]];
          claimed := claimed + {chunk[i]};
        }
      }
      assert chunk[..|chunk|] == chunk;
    }

    /** Offers every recipient to the table, a chunk at a time. */
    method ClaimAll(recipients: seq<Subscriber>) returns (d: Dispatch)
      modifies this
      ensures d == Dispatch(recipients, |recipients|, d.due, 0, [], [], [], false, 0) && DispatchOk(d)
      ensures Members(d.due) == Members(recipients) - old(claimed)
      ensures claimed == old(claimed) + Members(d.due)
    {
      d := Dispatch(recipients, 0, [], 0, [], [], [], false, 0);
      while d.asked < |recipients|
        invariant d == Dispatch(recipients, d.asked, d.due, 0, [], [], [], false, 0) && DispatchOk(d)
        invariant Members(d.due) == Members(recipients[..d.asked]) - old(claimed)
        invariant claimed == old(claimed) + Members(d.due)
        decreases |recipients| - d.asked
      {
        var upTo := Min(d.asked + CLAIM_CHUNK, |recipients|);
        ghost var before, table := d.due, claimed;
        UnclaimedIsNew(recipients[d.asked..upTo], claimed);
        var inserted := InsertNew(recipients[d.asked..upTo]);
        assert recipients[..upTo] == recipients[..d.asked] + recipients[d.asked..upTo];
        DisjointConcat(before, inserted, table);
        d := d.(asked := upTo, due := d.due + inserted);
      }
      assert recipients[..d.asked] == recipients;
    }

    /** Gives the released claims back, a chunk at a time. */
    method ReleaseAll(d: Dispatch) returns (done: Dispatch)
      requires DispatchOk(d) && d.Sent() && d.deleted == 0
      modifies this
      ensures done == d.(deleted := |d.Released()|) && DispatchOk(done) && done.Finished()
      ensures claimed == old(claimed) - Members(d.Released())
    {
      done := d;
      var released := d.Released();
      while done.deleted < |released|
        invariant done == d.(deleted := done.deleted) && done.deleted <= |released|
        invariant claimed == old(claimed) - Members(released[..done.deleted])
        decreases |released| - done.deleted
      {
        var upTo := Min(done.deleted + CLAIM_CHUNK, |released|);
        assert released[..upTo] == released[..done.deleted] + released[done.deleted..upTo];
        claimed := claimed - Members(released[done.deleted..upTo]);
        done := done.(deleted := upTo);
      }
      assert released[..done.deleted] == released;
    }

    /** Emails those the dispatch claimed, one after the other. */
    method SendAll(begun: Dispatch, send: Subscriber -> Mail) returns (d: Dispatch)
      requires DispatchOk(begun) && begun.asked == |begun.recipients| && begun.deleted == 0
      requires begun.next == 0 && begun.sent == [] && begun.failed == [] && begun.retrying == [] && !begun.down
      ensures DispatchOk(d) && d.Sent() && d.due == begun.due && d.deleted == 0
      ensures AsSent(d, send) && TriedUntilDown(d, send) && StopsOnlyWhenDown(d, send)
    {
      d := begun;
      while d.Sending()
        invariant DispatchOk(d) && d.asked == |d.recipients| && d.due == begun.due && d.deleted == 0
        invariant AsSent(d, send) && TriedUntilDown(d, send)
        decreases |d.due| - d.next
      {
        SendIsOk(d, send(d.due[d.next]));
        OneMoreTried(d, send);
        d := AfterSend(d, send(d.due[d.next]));
      }
      TriedMembers(d, send);
    }

    /** A whole dispatch. None when nobody was due. */
    method Notify(recipients: seq<Subscriber>, send: Subscriber -> Mail) returns (round: Option<Dispatch>)
      modifies this
      ensures round.None? ==> claimed == old(claimed) && Members(recipients) <= claimed
      ensures round.Some? ==>
                && DispatchOk(round.value) && round.value.Finished()
                && round.value.due != [] && Members(round.value.due) == Members(recipients) - old(claimed)
                && claimed == old(claimed) + Members(round.value.due) - Members(round.value.Released())
                && AsSent(round.value, send) && TriedUntilDown(round.value, send)
                && StopsOnlyWhenDown(round.value, send)
    {
      var d := ClaimAll(recipients);
      if d.due == [] {
        return None;
      }
      var sent := SendAll(d, send);
      var done := ReleaseAll(sent);
      assert done.Released() == sent.Released();
      return Some(done);
    }
  }

  /**
   * The mail server is reported down exactly when a send that goes back found it so. If no send does, everyone due is
   * tried, and exactly those go back whose send may yet pass.
   */
  ghost predicate StopsOnlyWhenDown(d: Dispatch, send: Subscriber -> Mail)
    requires d.next <= |d.due|
  {
    && (d.down <==> exists x :: x in d.retrying && send(x) == Transient(true))
    && ((forall x :: x in d.due ==> send(x) != Transient(true)) ==>
          && |d.sent| + |d.failed| + |d.retrying| == |d.due|
          && (forall x :: x in d.Released() <==> x in d.due && send(x).Transient?))
  }

  /**
   * The subscribers tried are the first ones due, one after the other: everyone up to the first whose send found
   * the mail server down, or everyone.
   */
  ghost predicate TriedUntilDown(d: Dispatch, send: Subscriber -> Mail) {
    var tried := |d.sent| + |d.failed| + |d.retrying|;
    && tried <= |d.due|
    && (forall k :: 0 <= k < tried - 1 ==> send(d.due[k]) != Transient(true))
    && (d.down <==> tried > 0 && send(d.due[tried - 1]) == Transient(true))
    && (d.Sent() && !d.down ==> tried == |d.due|)
    && (forall x :: x in d.sent + d.failed + d.retrying <==> x in d.due[..tried])
  }

  lemma {:induction false} TriedCount(d: Dispatch)
    requires DispatchOk(d)
    ensures |d.sent| + |d.failed| + |d.retrying| == d.next
  {
    assert |d.due[..d.next]| == |multiset(d.due[..d.next])|;
    assert |multiset(d.sent) + multiset(d.failed) + multiset(d.retrying)| == |d.sent| + |d.failed| + |d.retrying|;
  }

  lemma {:induction false} OneMoreTried(d: Dispatch, send: Subscriber -> Mail)
    requires DispatchOk(d) && d.Sending() && TriedUntilDown(d, send)
    ensures TriedUntilDown(AfterSend(d, send(d.due[d.next])), send)
  {
    var r, after := d.due[d.next], AfterSend(d, send(d.due[d.next]));
    TriedCount(d);
    var before, all := d.sent + d.failed + d.retrying, after.sent + after.failed + after.retrying;
    assert d.due[..d.next + 1] == d.due[..d.next] + [r];
    forall x ensures x in all <==> x in before || x == r {}
  }

  /** A send that finds the mail server down is the last one, and everyone after it goes back. */
  lemma {:induction false} TriedMembers(d: Dispatch, send: Subscriber -> Mail)
    requires DispatchOk(d) && d.Sent() && AsSent(d, send) && TriedUntilDown(d, send)
    ensures StopsOnlyWhenDown(d, send)
  {
    TriedCount(d);
    var tried := d.sent + d.failed + d.retrying;
    if d.down {
      var last := d.due[d.next - 1];
      assert last in d.due[..d.next];
      assert last in tried && last !in d.sent && last !in d.failed;
    }
    if x :| x in d.retrying && send(x) == Transient(true) {
      assert x in tried;
      var k :| 0 <= k < d.next && d.due[k] == x;
    }
    if forall x :: x in d.due ==> send(x) != Transient(true) {
      assert d.due[..d.next] == d.due;
      forall x | x in d.retrying ensures x in d.due { assert x in tried; }
      forall x | x in d.due && send(x).Transient? ensures x in d.retrying { assert x in tried; }
    }
  }

  /** Each subscriber tried is in the list that its send's result calls for. */
  ghost predicate AsSent(d: Dispatch, send: Subscriber -> Mail) {
    && (forall x :: x in d.sent ==> send(x) == Accepted)
    && (forall x :: x in d.failed ==> send(x) == Rejected)
    && (forall x :: x in d.retrying ==> send(x).Transient?)
  }

  lemma {:induction false} DisjointConcat(a: seq<Subscriber>, b: seq<Subscriber>, table: set<Subscriber>)
    requires Distinct(a) && Distinct(b) && Members(a) <= table && Members(b) !! table
    ensures Distinct(a + b) && Members(a + b) == Members(a) + Members(b)
  {
    forall i, j | 0 <= i < j < |a + b| ensures (a + b)[i] != (a + b)[j] {
      if i < |a| <= j {
        assert a[i] in Members(a);
        assert b[j - |a|] in Members(b);
      }
    }
  }
}
