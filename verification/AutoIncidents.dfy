/**
 * Automatic incidents across the result processor and the people who post to, resolve and delete
 * incidents (src/worker/monitor/processor.ts, src/lib/server/services/incident.service.ts).
 */
module AutoIncidents {
  import opened Prelude
  import opened Flap
  import opened ResultProcessor

  /** One change to a monitor's incidents. Incidents are named by their place in the list. */
  datatype Move =
    | Interpreted(x: Input)
    | Created(status: IncidentStatus, message: string)
    | Posted(target: nat, status: IncidentStatus, message: string)
    | Edited(target: nat, status: IncidentStatus)
    | Deleted(target: nat)

  /** Whether a human post changes the incident it joins, or only its timeline. */
  predicate PostApplies(i: Incident, status: IncidentStatus) {
    (status == Postmortem ==> Ended(i.status)) && (status == Resolved ==> !Ended(i.status))
  }

  function WithHumanPost(incidents: seq<Incident>, target: nat, status: IncidentStatus,
                         message: string): seq<Incident>
  {
    if target >= |incidents| then incidents
    else
      var i := incidents[target];
      var kept := if PostApplies(i, status) then status else i.status;
      incidents[target := i.(status := kept, posts := i.posts + [Post(status, message)])]
  }

  function Move1(cfg: Config, s: State, move: Move): State {
    match move
    case Interpreted(x) => Interpret(cfg, s, x)
    case Created(status, message) =>
      s.(incidents := s.incidents + [Incident(false, status, [Post(status, message)])])
    case Posted(target, status, message) =>
      s.(incidents := WithHumanPost(s.incidents, target, status, message))
    case Edited(target, status) =>
      if target < |s.incidents| then
        s.(incidents := s.incidents[target := s.incidents[target].(status := status)])
      else s
    case Deleted(target) =>
      if target < |s.incidents| then s.(incidents := s.incidents[..target] + s.incidents[target + 1..]) else s
  }

  function Moves(cfg: Config, s: State, moves: seq<Move>): State {
    if moves == [] then s
    else Move1(cfg, Moves(cfg, s, moves[..|moves| - 1]), moves[|moves| - 1])
  }

  predicate OpenAuto(i: Incident) {
    i.auto && i.Open()
  }

  ghost predicate AtMostOneOpenAuto(incidents: seq<Incident>) {
    forall i, j :: 0 <= i < j < |incidents| ==> !(OpenAuto(incidents[i]) && OpenAuto(incidents[j]))
  }

  /** At most one automatic incident is open, and only while the alerted outage it reports is. */
  ghost predicate Sound(s: State) {
    && AtMostOneOpenAuto(s.incidents)
    && (forall i :: 0 <= i < |s.incidents| && OpenAuto(s.incidents[i]) ==> OutageAlerted(s.log))
  }

  /** A human sets an ended automatic incident back to a status that is not an end. */
  predicate Reopens(s: State, move: Move) {
    && (move.Posted? || move.Edited?)
    && move.target < |s.incidents|
    && s.incidents[move.target].auto
    && Ended(s.incidents[move.target].status)
    && !Ended(move.status)
  }

  predicate Reopening(cfg: Config, s: State, moves: seq<Move>) {
    exists n :: 0 <= n < |moves| && Reopens(Moves(cfg, s, moves[..n]), moves[n])
  }

  lemma {:induction false} AnnouncedKeepsOne(incidents: seq<Incident>, opening: string, update: string, post: bool)
    requires AtMostOneOpenAuto(incidents)
    ensures AtMostOneOpenAuto(Announced(incidents, opening, update, post))
    ensures exists i :: 0 <= i < |Announced(incidents, opening, update, post)|
                        && Announced(incidents, opening, update, post)[i].Open()
  {
    var open := ActiveIncident(incidents);
    var r := Announced(incidents, opening, update, post);
    if open.None? {
      assert r[|incidents|].Open();
    } else {
      assert r[open.value].Open();
    }
  }

  /** Resolving the open automatic incident leaves none open, because there was only the one. */
  lemma {:induction false} ResolvedLeavesNone(incidents: seq<Incident>, message: string)
    requires AtMostOneOpenAuto(incidents)
    ensures var r := WithAutoResolved(incidents, message);
            forall i :: 0 <= i < |r| ==> !OpenAuto(r[i])
  {
    var open := ActiveIncident(incidents);
    var r := WithAutoResolved(incidents, message);
    forall i | 0 <= i < |r| ensures !OpenAuto(r[i]) {
      if OpenAuto(incidents[i]) {
        assert incidents[i].Open() && incidents[i].auto;
        assert OpenAuto(incidents[open.value]);
      }
    }
  }

  lemma {:induction false} InterpretedStaysSound(cfg: Config, s: State, x: Input)
    requires Sound(s)
    ensures Sound(Interpret(cfg, s, x))
  {
    if Recorded(s, x) {
      var v := Judge(cfg, s, x);
      var kind := Enqueued(v);
      if kind.Some? {
        AppendedEvent(s.log, Event(kind.value, x.clock, x.row.checkedAt));
      }
      if v == StartHold {
        AnnouncedKeepsOne(s.incidents, FLAPS, FLAPS, true);
      } else if v == AlertDown {
        AnnouncedKeepsOne(s.incidents, NO_RESPONSE, STAYS_DOWN, ActiveFlap(s.log).Some?);
      } else if v == AlertUp {
        ResolvedLeavesNone(s.incidents, RECOVERED);
      } else if v.Hold? {
        FlapIsOutage(s.log);
      } else {
        ResolvedLeavesNone(s.incidents, RESPONDS);
      }
    }
  }

  lemma {:induction false} DeletedStaysSound(s: State, target: nat)
    requires Sound(s) && target < |s.incidents|
    ensures Sound(s.(incidents := s.incidents[..target] + s.incidents[target + 1..]))
  {
    var r := s.incidents[..target] + s.incidents[target + 1..];
    forall i, j | 0 <= i < j < |r| ensures !(OpenAuto(r[i]) && OpenAuto(r[j])) {
      var i', j' := if i < target then i else i + 1, if j < target then j else j + 1;
      assert r[i] == s.incidents[i'] && r[j] == s.incidents[j'];
    }
    forall i | 0 <= i < |r| && OpenAuto(r[i]) ensures OutageAlerted(s.log) {
      var i' := if i < target then i else i + 1;
      assert r[i] == s.incidents[i'];
    }
  }

  lemma {:induction false} MoveStaysSound(cfg: Config, s: State, move: Move)
    requires Sound(s) && !Reopens(s, move)
    ensures Sound(Move1(cfg, s, move))
  {
    match move {
      case Interpreted(x) => InterpretedStaysSound(cfg, s, x);
      case Deleted(target) => if target < |s.incidents| { DeletedStaysSound(s, target); }
      case _ =>
        var r := Move1(cfg, s, move);
        forall i | 0 <= i < |r.incidents| && OpenAuto(r.incidents[i])
          ensures i < |s.incidents| && OpenAuto(s.incidents[i])
        {}
    }
  }

  /**
   * However the processor's steps mix with manual incidents, posts, resolves and deletes, as long as
   * nobody reopens an ended automatic incident, the monitor has at most one open automatic incident,
   * and only while people are owed a recovery alert.
   */
  lemma {:induction false} AutoIncidentsFollowOutages(cfg: Config, moves: seq<Move>)
    requires !Reopening(cfg, INITIAL, moves)
    ensures Sound(Moves(cfg, INITIAL, moves))
  {
    if moves != [] {
      var n := |moves| - 1;
      var before := moves[..n];
      assert !Reopening(cfg, INITIAL, before) by {
        forall k | 0 <= k < n ensures !Reopens(Moves(cfg, INITIAL, before[..k]), before[k]) {
          assert before[..k] == moves[..k];
        }
      }
      AutoIncidentsFollowOutages(cfg, before);
      MoveStaysSound(cfg, Moves(cfg, INITIAL, before), moves[n]);
    }
  }

  /** A reopening keeps the promise exactly when the outage is open and no other incident reports it. */
  lemma {:induction false} ReopeningBreaksItExactlyWhen(cfg: Config, s: State, move: Move)
    requires Sound(s) && Reopens(s, move)
    ensures Sound(Move1(cfg, s, move))
            <==> OutageAlerted(s.log)
                 && forall i :: 0 <= i < |s.incidents| ==> !OpenAuto(s.incidents[i])
  {
    var r := Move1(cfg, s, move).incidents;
    assert OpenAuto(r[move.target]);
    forall i | 0 <= i < |s.incidents| && OpenAuto(s.incidents[i])
      ensures !AtMostOneOpenAuto(r)
    {
      assert i != move.target && r[i] == s.incidents[i];
      assert OpenAuto(r[i]) && OpenAuto(r[move.target]);
    }
    if forall i :: 0 <= i < |s.incidents| ==> !OpenAuto(s.incidents[i]) {
      assert forall i :: 0 <= i < |r| && i != move.target ==> !OpenAuto(r[i]);
    }
  }

  /** Only a human's reopening can break the promise, and this one does not. */
  ghost predicate Fits(s: State, move: Move) {
    Reopens(s, move) ==> OutageAlerted(s.log) && forall i :: 0 <= i < |s.incidents| ==> !OpenAuto(s.incidents[i])
  }

  ghost predicate AllFit(cfg: Config, moves: seq<Move>) {
    moves != [] ==>
      && AllFit(cfg, moves[..|moves| - 1])
      && Fits(Moves(cfg, INITIAL, moves[..|moves| - 1]), moves[|moves| - 1])
  }

  ghost predicate SoundThroughout(cfg: Config, moves: seq<Move>) {
    Sound(Moves(cfg, INITIAL, moves)) && (moves != [] ==> SoundThroughout(cfg, moves[..|moves| - 1]))
  }

  /**
   * Over any run the promise about automatic incidents holds throughout exactly when each reopening came while
   * the outage was open and no other automatic incident was.
   */
  lemma {:induction false} ReopeningsBreakItExactlyWhen(cfg: Config, moves: seq<Move>)
    ensures SoundThroughout(cfg, moves) <==> AllFit(cfg, moves)
  {
    if moves != [] {
      var n := |moves| - 1;
      var s := Moves(cfg, INITIAL, moves[..n]);
      ReopeningsBreakItExactlyWhen(cfg, moves[..n]);
      if SoundThroughout(cfg, moves[..n]) {
        assert Sound(s);
        if Reopens(s, moves[n]) { ReopeningBreaksItExactlyWhen(cfg, s, moves[n]); }
        else { MoveStaysSound(cfg, s, moves[n]); }
      }
    }
  }

  lemma {:induction false} OneMoreMove(cfg: Config, moves: seq<Move>, s: State, move: Move)
    returns (more: seq<Move>, t: State)
    requires s == Moves(cfg, INITIAL, moves)
    ensures more == moves + [move] && t == Move1(cfg, s, move) == Moves(cfg, INITIAL, more)
  {
    more, t := moves + [move], Move1(cfg, s, move);
    assert more[..|moves|] == moves;
  }

  const ANY := Config(0, 1, 1)

  /** A first down check that alerts and opens an incident. */
  lemma {:induction false} RunToAnOutage() returns (moves: seq<Move>, s: State)
    ensures s == Moves(ANY, INITIAL, moves)
    ensures s == State(Down, Some(10), Some(10), 1, [Event(MonitorDown, 11, 10)],
                       [Incident(true, Investigating, [Post(Investigating, NO_RESPONSE)])])
  {
    moves, s := OneMoreMove(ANY, [], INITIAL, Interpreted(Input(Check(0, 10, Down, false), [], 1, false, 11)));
  }

  /** The recovery that follows resolves it. */
  lemma {:induction false} RunToARecovery() returns (moves: seq<Move>, s: State)
    ensures s == Moves(ANY, INITIAL, moves)
    ensures s.log == [Event(MonitorDown, 11, 10), Event(MonitorUp, 21, 20)]
    ensures |s.incidents| == 1 && s.incidents[0].auto && s.incidents[0].status == Resolved
  {
    moves, s := RunToAnOutage();
    assert OutageAlerted(s.log);
    assert ActiveIncident(s.incidents) == Some(0);
    moves, s := OneMoreMove(ANY, moves, s, Interpreted(Input(Check(1, 20, Up, false), [], 1, false, 21)));
  }

  /** Then someone sets the incident back to investigating. */
  lemma {:induction false} ReopeningOutlivesTheOutage() returns (cfg: Config, moves: seq<Move>)
    ensures !Sound(Moves(cfg, INITIAL, moves))
  {
    cfg := ANY;
    var s;
    moves, s := RunToARecovery();
    assert !OutageAlerted(s.log);
    moves, s := OneMoreMove(cfg, moves, s, Move.Posted(0, Investigating, "still seeing errors"));
    assert OpenAuto(s.incidents[0]);
  }

  /** An outage alert never goes out without an open incident to point at. */
  lemma {:induction false} AlertsLeaveAnOpenIncident(cfg: Config, s: State, x: Input)
    requires Sound(s) && Recorded(s, x) && Judge(cfg, s, x) in {StartHold, AlertDown}
    ensures exists i :: 0 <= i < |Interpret(cfg, s, x).incidents| && Interpret(cfg, s, x).incidents[i].Open()
  {
    var r := Interpret(cfg, s, x).incidents;
    assert r == NextIncidents(cfg, s, x);
    if Judge(cfg, s, x) == StartHold {
      AnnouncedKeepsOne(s.incidents, FLAPS, FLAPS, true);
    } else {
      AnnouncedKeepsOne(s.incidents, NO_RESPONSE, STAYS_DOWN, ActiveFlap(s.log).Some?);
    }
  }

  // ---------------------------------------------------------------------------------------------
  // The incident service
  // ---------------------------------------------------------------------------------------------

  /**
   * The post is the newest of its incident's and of no other's. The incident takes its status, but for a postmortem
   * before its end and for a second end.
   */
  ghost predicate PostJoins(before: seq<Incident>, after: seq<Incident>, target: nat, status: IncidentStatus,
                            message: string)
  {
    && target < |before| == |after|
    && (forall i :: 0 <= i < |before| && i != target ==> after[i] == before[i])
    && after[target].auto == before[target].auto
    && after[target].posts == before[target].posts + [Post(status, message)]
    && var ended := before[target].status in {Resolved, Postmortem};
       after[target].status == if (status == Postmortem && !ended) || (status == Resolved && ended) then
                                 before[target].status
                               else status
  }

  /** People's moves touch one incident each: a new one, a post, a status, or one that is taken away. */
  lemma {:induction false} MovesTouchOne(cfg: Config, s: State, target: nat, status: IncidentStatus, message: string)
    ensures var t := Move1(cfg, s, Created(status, message));
            t == s.(incidents := s.incidents + [Incident(false, status, [Post(status, message)])])
    ensures var t := Move1(cfg, s, Move.Posted(target, status, message));
            if target < |s.incidents| then
              t == s.(incidents := t.incidents) && PostJoins(s.incidents, t.incidents, target, status, message)
            else t == s
    ensures var t := Move1(cfg, s, Edited(target, status));
            && t == s.(incidents := t.incidents) && |t.incidents| == |s.incidents|
            && forall i :: 0 <= i < |s.incidents| ==>
                 t.incidents[i] == Incident(s.incidents[i].auto, if i == target then status else s.incidents[i].status,
                                            s.incidents[i].posts)
  {}

  /** The incidents of a monitor as the incident service changes them. */
  class IncidentService {
    var incidents: seq<Incident>
    /** How many incident events each call enqueued in all. */
    var enqueued: nat

    constructor ()
      ensures incidents == [] && enqueued == 0
    {
      incidents, enqueued := [], 0;
    }

    /** Returns false, and changes nothing, for an incident that is not there. */
    method AddUpdate(target: nat, status: IncidentStatus, message: string) returns (found: bool)
      modifies this
      ensures found == (target < old(|incidents|))
      ensures incidents == WithHumanPost(old(incidents), target, status, message)
      ensures found ==> PostJoins(old(incidents), incidents, target, status, message)
      ensures !found ==> incidents == old(incidents)
      ensures enqueued == old(enqueued)
              + if found && (status in {Investigating, Identified, Monitoring}
                             || (status == Resolved && old(incidents)[target].status !in {Resolved, Postmortem}))
                then 1 else 0
    {
      if target >= |incidents| {
        return false;
      }
      var posted := incidents[target].(posts := incidents[target].posts + [Post(status, message)]);
      incidents := incidents[target := posted];
      if (status == Postmortem && !Ended(posted.status)) || (status == Resolved && Ended(posted.status)) {
        return true;
      }
      incidents := incidents[target := posted.(status := status)];
      if status != Postmortem {
        enqueued := enqueued + 1;
      }
      return true;
    }

    /** Removes one incident and leaves the others in place, so that the promise about automatic ones holds on. */
    method Delete(target: nat) returns (deleted: bool)
      modifies this`incidents
      ensures deleted == (target < old(|incidents|))
      ensures multiset(old(incidents))
              == multiset(incidents) + (if deleted then multiset{old(incidents)[target]} else multiset{})
      ensures forall cfg, s: State :: s.incidents == old(incidents) ==>
                Move1(cfg, s, Deleted(target)) == s.(incidents := incidents)
      ensures forall s: State :: s.incidents == old(incidents) && Sound(s) ==> Sound(s.(incidents := incidents))
    {
      deleted := target < |incidents|;
      if deleted {
        ghost var was := incidents;
        assert was == was[..target] + [was[target]] + was[target + 1..];
        incidents := incidents[..target] + incidents[target + 1..];
        forall s: State | s.incidents == was && Sound(s) ensures Sound(s.(incidents := incidents)) {
          DeletedStaysSound(s, target);
        }
      }
    }
  }

  /** A post to one incident. */
  function Posted(i: Incident, post: Post): Incident {
    i.(status := if PostApplies(i, post.status) then post.status else i.status, posts := i.posts + [post])
  }

  function PostedAll(i: Incident, posts: seq<Post>): Incident {
    if posts == [] then i else Posted(PostedAll(i, posts[..|posts| - 1]), posts[|posts| - 1])
  }

  /** How many of the posts resolved the incident, and so told its subscribers. */
  function Resolutions(i: Incident, posts: seq<Post>): nat {
    if posts == [] then 0
    else
      var before, post := posts[..|posts| - 1], posts[|posts| - 1];
      Resolutions(i, before)
      + if post.status == Resolved && PostApplies(PostedAll(i, before), Resolved) then 1 else 0
  }

  lemma {:induction false} PostsAreKept(i: Incident, posts: seq<Post>)
    ensures PostedAll(i, posts).posts == i.posts + posts
  {
    if posts != [] {
      var n := |posts| - 1;
      PostsAreKept(i, posts[..n]);
      assert posts == posts[..n] + [posts[n]];
    }
  }

  predicate AnyResolve(posts: seq<Post>) {
    exists k :: 0 <= k < |posts| && posts[k].status == Resolved
  }

  lemma {:induction false} ResolveLast(posts: seq<Post>)
    requires posts != []
    ensures AnyResolve(posts) <==> AnyResolve(posts[..|posts| - 1]) || posts[|posts| - 1].status == Resolved
  {
    var n := |posts| - 1;
    forall k | 0 <= k < n ensures posts[..n][k] == posts[k] {}
  }

  /**
   * However many people post a resolve or a postmortem to one incident, it is resolved once, by the
   * first resolve if it was open, and everything they wrote is on its timeline.
   */
  lemma {:induction false} ResolvedOnce(i: Incident, posts: seq<Post>)
    requires forall p :: p in posts ==> Ended(p.status)
    ensures Resolutions(i, posts) == (if i.Open() && AnyResolve(posts) then 1 else 0)
    ensures Ended(PostedAll(i, posts).status) <==> Ended(i.status) || AnyResolve(posts)
    ensures PostedAll(i, posts).posts == i.posts + posts
  {
    PostsAreKept(i, posts);
    if posts != [] {
      var n := |posts| - 1;
      assert posts[n] in posts;
      ResolvedOnce(i, posts[..n]);
      ResolveLast(posts);
    }
  }
}
