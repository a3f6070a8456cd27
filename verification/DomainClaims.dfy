/**
 * Custom domains of status pages: claims guarded by a token, and DNS answers that arrive between the
 * read and the write (src/lib/server/services/status-page-domain.service.ts).
 */
module DomainClaims {
  import opened Prelude

  const HOUR := 3_600_000
  const RECHECK_AFTER := HOUR
  const MAX_FAILED_CHECKS := 3

  type Page = nat
  type Domain = string
  type Token = string

  // ---------------------------------------------------------------------------------------------
  // What DNS said
  // ---------------------------------------------------------------------------------------------

  /** The resolver's answers, None when it could not say, and whether the stored domain is a public name at all. */
  datatype Dns = Dns(proper: bool, cnames: Option<seq<string>>, txts: Option<seq<seq<string>>>)

  /** A lookup of a claim's two records, with what came back. */
  datatype Lookup = Lookup(domain: Domain, token: Token, target: string, dns: Dns)

  datatype Verdict = Verified | Missing | NoAnswer

  function Lower(c: char): char {
    if 'A' <= c <= 'Z' then c - 'A' + 'a' else c
  }

  /** Lowercased, without the root's dot. */
  function Canonical(name: string): string {
    var lower := seq(|name|, i requires 0 <= i < |name| => Lower(name[i]));
    if lower != "" && lower[|lower| - 1] == '.' then lower[..|lower| - 1] else lower
  }

  function Joined(chunks: seq<string>): string {
    if chunks == [] then "" else Joined(chunks[..|chunks| - 1]) + chunks[|chunks| - 1]
  }

  /** Some CNAME answer sends the domain's traffic to the target. */
  predicate Routed(l: Lookup) {
    l.dns.cnames.Some? && exists i :: 0 <= i < |l.dns.cnames.value| && Canonical(l.dns.cnames.value[i]) == l.target
  }

  /** Some TXT answer is the claim's token, in however many pieces. */
  predicate Owned(l: Lookup) {
    l.dns.txts.Some? && exists i :: 0 <= i < |l.dns.txts.value| && Joined(l.dns.txts.value[i]) == l.token
  }

  function CheckDns(l: Lookup): Verdict {
    if !l.dns.proper then Missing
    else if Routed(l) && Owned(l) then Verified
    else if l.dns.cnames.None? || l.dns.txts.None? then NoAnswer
    else Missing
  }

  // ---------------------------------------------------------------------------------------------
  // The rows
  // ---------------------------------------------------------------------------------------------

  datatype Claim = Claim(domain: Domain, token: Token, verifiedTarget: Option<string>, failedChecks: nat,
                         checkedAt: Option<int>, lapsedAt: Option<int>)

  /** A lookup whose answers are in and whose write is to come, a customer's or that of a sweep started at `now`. */
  datatype Request =
    | Verifying(page: Page, lookup: Lookup)
    | Rechecking(page: Page, lookup: Lookup, now: int)

  /** What landed, oldest first: answers with the check time they left on the row, and takedowns. */
  datatype Entry =
    | Answered(page: Page, lookup: Lookup, sweep: bool, stamp: int, at: int)
    | TakenDown(page: Page, token: Token, at: int)

  /**
   * `serves` is the domain of each page that has one, `issued` the tokens handed out and `lookups` every
   * lookup made so far.
   */
  datatype State = State(serves: map<Page, Domain>, claims: map<Page, Claim>, requests: seq<Request>,
                         issued: set<Token>, lookups: set<Lookup>, log: seq<Entry>, clock: int)

  /** A recheck is due an hour after the check time on the row, when it is picked and again when it is written. */
  predicate Due(c: Claim, now: int) {
    c.checkedAt.None? || c.checkedAt.value < now - RECHECK_AFTER
  }

  predicate Elsewhere(serves: map<Page, Domain>, page: Page, domain: Domain) {
    exists p :: p in serves && p != page && serves[p] == domain
  }

  /** Whether the claim looked up is still the page's. */
  predicate Current(claims: map<Page, Claim>, page: Page, token: Token) {
    page in claims && claims[page].token == token
  }

  // ---------------------------------------------------------------------------------------------
  // Interleavings
  // ---------------------------------------------------------------------------------------------

  /**
   * `ClaimDomain` stands for the write alone: the check for another holder before it may be stale, and
   * nothing relies on it. Its token is a fresh one. A lookup and its write are separate steps, and the
   * write at `at` carries a clock reading `read` of its own.
   */
  datatype Step =
    | ClaimDomain(page: Page, domain: Domain, token: Token)
    | ReleaseDomain(page: Page)
    | Verify(page: Page, target: string, dns: Dns)
    | Recheck(page: Page, dns: Dns, now: int)
    | Write(request: nat, read: int, at: int)

  /**
   * A customer's verified answer queries for another holder between its clock reading and its write. Every
   * other answer is written in the statement that reads the clock.
   */
  predicate Timely(r: Request, read: int, at: int) {
    && read <= at
    && (r.Rechecking? || CheckDns(r.lookup) != Verified ==> read == at)
    && (r.Rechecking? ==> r.now <= at)
  }

  predicate Enabled(s: State, step: Step) {
    match step
    case ClaimDomain(_, _, token) => token !in s.issued
    case ReleaseDomain(_) => true
    case Verify(page, _, _) => page in s.claims
    case Recheck(page, _, now) =>
      && page in s.claims && page in s.serves && s.serves[page] == s.claims[page].domain
      && s.claims[page].verifiedTarget.Some? && Due(s.claims[page], now)
    case Write(k, read, at) => k < |s.requests| && s.clock <= at && Timely(s.requests[k], read, at)
  }

  function VerifyWritten(s: State, page: Page, l: Lookup, read: int, at: int): State {
    if !Current(s.claims, page, l.token) then s
    else if CheckDns(l) != Verified then
      s.(claims := s.claims[page := s.claims[page].(checkedAt := Some(read))],
         log := s.log + [Answered(page, l, false, read, at)])
    else if Elsewhere(s.serves, page, l.domain) then s
    else
      s.(claims := s.claims[page := s.claims[page].(checkedAt := Some(read), verifiedTarget := Some(l.target),
                                                    failedChecks := 0, lapsedAt := None)],
         serves := s.serves[page := l.domain],
         log := s.log + [Answered(page, l, false, read, at)])
  }

  function FailedChecks(before: nat, verdict: Verdict): nat {
    match verdict
    case Verified => 0
    case Missing => before + 1
    case NoAnswer => before
  }

  function RecheckWritten(s: State, page: Page, l: Lookup, now: int, at: int): State {
    if !Current(s.claims, page, l.token) || !Due(s.claims[page], now) then s
    else
      var c := s.claims[page].(checkedAt := Some(at),
                               failedChecks := FailedChecks(s.claims[page].failedChecks, CheckDns(l)));
      var answered := s.log + [Answered(page, l, true, at, at)];
      if c.failedChecks < MAX_FAILED_CHECKS || page !in s.serves || s.serves[page] != l.domain then
        s.(claims := s.claims[page := c], log := answered)
      else
        s.(claims := s.claims[page := c.(lapsedAt := Some(at))],
           serves := s.serves - {page},
           log := answered + [TakenDown(page, l.token, at)])
  }

  /** A lookup of the page's claim. */
  function Asked(s: State, page: Page, target: string, dns: Dns): Lookup
    requires page in s.claims
  {
    Lookup(s.claims[page].domain, s.claims[page].token, target, dns)
  }

  function Next(s: State, step: Step): State {
    if !Enabled(s, step) then s
    else match step
      case ClaimDomain(page, domain, token) =>
        s.(serves := s.serves - {page}, issued := s.issued + {token},
           claims := s.claims[page := Claim(domain, token, None, 0, None, None)])
      case ReleaseDomain(page) => s.(serves := s.serves - {page}, claims := s.claims - {page})
      case Verify(page, target, dns) =>
        var l := Asked(s, page, target, dns);
        s.(requests := s.requests + [Verifying(page, l)], lookups := s.lookups + {l})
      case Recheck(page, dns, now) =>
        var l := Asked(s, page, s.claims[page].verifiedTarget.value, dns);
        s.(requests := s.requests + [Rechecking(page, l, now)], lookups := s.lookups + {l})
      case Write(k, read, at) =>
        var rest := s.(requests := Without(s.requests, k), clock := at);
        match s.requests[k]
        case Verifying(page, l) => VerifyWritten(rest, page, l, read, at)
        case Rechecking(page, l, now) => RecheckWritten(rest, page, l, now, at)
  }

  const INITIAL := State(map[], map[], [], {}, {}, [], 0)

  function Run(steps: seq<Step>): State {
    if steps == [] then INITIAL else Next(Run(steps[..|steps| - 1]), steps[|steps| - 1])
  }

  // ---------------------------------------------------------------------------------------------
  // The invariant
  // ---------------------------------------------------------------------------------------------

  predicate About(e: Entry, page: Page, token: Token) {
    e.Answered? && e.page == page && e.lookup.token == token
  }

  /** The sweep's misses for a claim since an answer last verified it. */
  function Misses(log: seq<Entry>, page: Page, token: Token): seq<Entry> {
    if log == [] then [] else Counted(Misses(log[..|log| - 1], page, token), log[|log| - 1], page, token)
  }

  function Counted(misses: seq<Entry>, e: Entry, page: Page, token: Token): seq<Entry> {
    if !About(e, page, token) then misses
    else if CheckDns(e.lookup) == Verified then []
    else if CheckDns(e.lookup) == Missing && e.sweep then misses + [e]
    else misses
  }

  /** The check time that the newest answer about a claim left. */
  function LastStamp(log: seq<Entry>, page: Page, token: Token): Option<int> {
    if log == [] then None
    else if About(log[|log| - 1], page, token) then Some(log[|log| - 1].stamp)
    else LastStamp(log[..|log| - 1], page, token)
  }

  /** Each miss came more than an hour after the one before it. */
  ghost predicate HourApart(misses: seq<Entry>) {
    forall i, j :: 0 <= i < j < |misses| ==> misses[i].at + HOUR < misses[j].at
  }

  ghost predicate ClaimOk(s: State, page: Page)
    requires page in s.claims
  {
    var c := s.claims[page];
    var misses := Misses(s.log, page, c.token);
    && c.token in s.issued
    && c.failedChecks == |misses|
    && HourApart(misses)
    && (misses != [] ==> c.checkedAt.Some? && misses[|misses| - 1].at <= c.checkedAt.value)
    && (c.checkedAt.Some? ==> c.checkedAt.value <= s.clock)
    && c.checkedAt == LastStamp(s.log, page, c.token)
  }

  /** Some lookup for a claim with this token found both of its records. */
  ghost predicate Proven(lookups: set<Lookup>, domain: Domain, token: Token, target: string) {
    exists l :: l in lookups && l.domain == domain && l.token == token && l.target == target && CheckDns(l) == Verified
  }

  /** A served domain is the page's own claim's, proven and not lapsed. */
  ghost predicate ServedOk(s: State, page: Page)
    requires page in s.serves
  {
    && page in s.claims
    && s.claims[page].domain == s.serves[page]
    && s.claims[page].verifiedTarget.Some?
    && Proven(s.lookups, s.serves[page], s.claims[page].token, s.claims[page].verifiedTarget.value)
    && s.claims[page].failedChecks < MAX_FAILED_CHECKS
  }

  ghost predicate RequestOk(s: State, r: Request) {
    && r.lookup in s.lookups
    && r.lookup.token in s.issued
    && (Current(s.claims, r.page, r.lookup.token) ==> s.claims[r.page].domain == r.lookup.domain)
  }

  ghost predicate NoTwoServe(serves: map<Page, Domain>) {
    forall p, q :: p in serves && q in serves && p != q ==> serves[p] != serves[q]
  }

  /** An entry that may join the log: a takedown comes with a third miss, a sweep's answer an hour after the row's. */
  ghost predicate Earned(log: seq<Entry>, e: Entry) {
    match e
    case TakenDown(page, token, at) =>
      var misses := Misses(log, page, token);
      |misses| >= MAX_FAILED_CHECKS && HourApart(misses) && misses[|misses| - 1].at == at
    case Answered(page, l, sweep, stamp, at) =>
      var last := LastStamp(log, page, l.token);
      && stamp <= at
      && (sweep || CheckDns(l) != Verified ==> stamp == at)
      && (sweep && last.Some? ==> last.value + HOUR < at)
  }

  ghost predicate AllEarned(log: seq<Entry>) {
    forall k :: 0 <= k < |log| ==> Earned(log[..k], log[k])
  }

  ghost predicate InOrder(log: seq<Entry>) {
    forall i, j :: 0 <= i <= j < |log| ==> log[i].at <= log[j].at
  }

  /** Log entries are about lookups made, tokens handed out and times past. */
  ghost predicate Known(s: State, e: Entry) {
    && e.at <= s.clock
    && (e.Answered? ==> e.lookup in s.lookups && e.lookup.token in s.issued)
    && (e.TakenDown? ==> e.token in s.issued)
  }

  ghost predicate ClaimsOk(s: State) {
    forall p :: p in s.claims ==> ClaimOk(s, p)
  }

  ghost predicate ServesOk(s: State) {
    && (forall p :: p in s.serves ==> ServedOk(s, p))
    && NoTwoServe(s.serves)
  }

  ghost predicate RequestsOk(s: State) {
    forall k :: 0 <= k < |s.requests| ==> RequestOk(s, s.requests[k])
  }

  ghost predicate LogOk(s: State) {
    AllEarned(s.log) && InOrder(s.log) && forall k :: 0 <= k < |s.log| ==> Known(s, s.log[k])
  }

  ghost predicate Inv(s: State) {
    ClaimsOk(s) && ServesOk(s) && RequestsOk(s) && LogOk(s)
  }

  lemma {:induction false} NewTokenHasNoAnswers(log: seq<Entry>, page: Page, token: Token)
    requires forall k :: 0 <= k < |log| ==> !About(log[k], page, token)
    ensures Misses(log, page, token) == [] && LastStamp(log, page, token) == None
  {
    if log != [] {
      NewTokenHasNoAnswers(log[..|log| - 1], page, token);
    }
  }

  lemma {:induction false} AnswersAppend(log: seq<Entry>, e: Entry, page: Page, token: Token)
    ensures Misses(log + [e], page, token) == Counted(Misses(log, page, token), e, page, token)
    ensures LastStamp(log + [e], page, token)
            == if About(e, page, token) then Some(e.stamp) else LastStamp(log, page, token)
  {
    assert (log + [e])[..|log|] == log;
  }

  lemma {:induction false} EarnedAppend(log: seq<Entry>, e: Entry)
    requires AllEarned(log) && Earned(log, e)
    ensures AllEarned(log + [e])
  {
    forall k | 0 <= k < |log + [e]| ensures (log + [e])[..k] == log[..k] && (k == |log| ==> log[..k] == log) {}
  }

  lemma {:induction false} LogAppend(s: State, t: State, e: Entry)
    requires LogOk(s) && t.log == s.log + [e] && Earned(s.log, e) && Known(t, e) && s.clock <= e.at
    requires t.clock == s.clock && t.lookups == s.lookups && t.issued == s.issued
    ensures LogOk(t)
  {
    EarnedAppend(s.log, e);
    forall k | 0 <= k < |t.log| ensures Known(t, t.log[k]) {
      if k < |s.log| { assert Known(s, s.log[k]); }
    }
    forall k | 0 <= k < |s.log| ensures s.log[k].at <= e.at { assert Known(s, s.log[k]); }
  }

  lemma {:induction false} ClaimingKeepsInv(s: State, step: Step)
    requires Inv(s) && Enabled(s, step) && step.ClaimDomain?
    ensures Inv(Next(s, step))
  {
    var t := Next(s, step);
    forall k | 0 <= k < |s.log| ensures !About(s.log[k], step.page, step.token) && Known(t, s.log[k]) {
      assert Known(s, s.log[k]);
    }
    NewTokenHasNoAnswers(s.log, step.page, step.token);
    forall p | p in t.claims ensures ClaimOk(t, p) {
      if p != step.page { assert ClaimOk(s, p); }
    }
    forall p | p in t.serves ensures ServedOk(t, p) { assert ServedOk(s, p); }
    forall k | 0 <= k < |t.requests| ensures RequestOk(t, t.requests[k]) { assert RequestOk(s, s.requests[k]); }
  }

  lemma {:induction false} ReleaseKeepsInv(s: State, page: Page)
    requires Inv(s)
    ensures Inv(Next(s, ReleaseDomain(page)))
  {
    var t := Next(s, ReleaseDomain(page));
    forall p | p in t.claims ensures ClaimOk(t, p) { assert ClaimOk(s, p); }
    forall p | p in t.serves ensures ServedOk(t, p) { assert ServedOk(s, p); }
    forall k | 0 <= k < |t.requests| ensures RequestOk(t, t.requests[k]) { assert RequestOk(s, s.requests[k]); }
    forall k | 0 <= k < |t.log| ensures Known(t, t.log[k]) { assert Known(s, s.log[k]); }
  }

  lemma {:induction false} LookingKeepsInv(s: State, t: State, r: Request)
    requires Inv(s)
    requires t == s.(requests := s.requests + [r], lookups := s.lookups + {r.lookup})
    requires r.page in s.claims && r.lookup == Asked(s, r.page, r.lookup.target, r.lookup.dns)
    ensures Inv(t)
  {
    assert ClaimOk(s, r.page);
    forall p | p in t.claims ensures ClaimOk(t, p) { assert ClaimOk(s, p); }
    forall p | p in t.serves ensures ServedOk(t, p) { assert ServedOk(s, p); }
    forall k | 0 <= k < |t.requests| ensures RequestOk(t, t.requests[k]) {
      if k < |s.requests| { assert RequestOk(s, s.requests[k]); }
    }
    forall k | 0 <= k < |t.log| ensures Known(t, t.log[k]) { assert Known(s, s.log[k]); }
  }

  /** A request leaving the list, and time passing, change nothing about the rest. */
  lemma {:induction false} RestKeepsInv(s: State, k: nat, at: int)
    requires Inv(s) && k < |s.requests| && s.clock <= at
    ensures Inv(s.(requests := Without(s.requests, k), clock := at))
  {
    var t := s.(requests := Without(s.requests, k), clock := at);
    forall p | p in t.claims ensures ClaimOk(t, p) { assert ClaimOk(s, p); }
    forall p | p in t.serves ensures ServedOk(t, p) { assert ServedOk(s, p); }
    forall i | 0 <= i < |t.requests| ensures RequestOk(t, t.requests[i]) {
      assert RequestOk(s, s.requests[if i < k then i else i + 1]);
    }
    forall i | 0 <= i < |t.log| ensures Known(t, t.log[i]) { assert Known(s, s.log[i]); }
  }

  /** The claim of one page may have changed, no token or domain of any. */
  ghost predicate OnlyClaim(s: State, t: State, page: Page) {
    && page in s.claims && page in t.claims
    && t.claims == s.claims[page := t.claims[page]]
    && t.claims[page].token == s.claims[page].token && t.claims[page].domain == s.claims[page].domain
    && t.issued == s.issued && t.lookups == s.lookups && t.clock == s.clock && t.requests == s.requests
  }

  /** An answer lands on the claim it was asked for, and every other claim is as it was. */
  lemma {:induction false} AnswerKeepsOthers(s: State, t: State, page: Page, e: Entry)
    requires ClaimsOk(s) && RequestsOk(s) && LogOk(s) && OnlyClaim(s, t, page)
    requires e.Answered? && e.page == page && e.lookup.token == s.claims[page].token && e.lookup in s.lookups
    requires t.log == s.log + [e] && Earned(s.log, e) && e.at == s.clock
    ensures forall p :: p in t.claims && p != page ==> ClaimOk(t, p)
    ensures RequestsOk(t)
    ensures LogOk(t)
    ensures Misses(t.log, page, e.lookup.token)
            == Counted(Misses(s.log, page, e.lookup.token), e, page, e.lookup.token)
    ensures LastStamp(t.log, page, e.lookup.token) == Some(e.stamp)
  {
    assert ClaimOk(s, page);
    AnswersAppend(s.log, e, page, e.lookup.token);
    LogAppend(s, t, e);
    forall p | p in t.claims && p != page ensures ClaimOk(t, p) {
      assert ClaimOk(s, p);
      AnswersAppend(s.log, e, p, s.claims[p].token);
    }
    forall k | 0 <= k < |t.requests| ensures RequestOk(t, t.requests[k]) { assert RequestOk(s, s.requests[k]); }
  }

  /**
   * What the page's own claim is after an answer: a miss is counted once, and one that verifies, the only one
   * to come with an older check time, resets the count.
   */
  lemma {:induction false} AnsweredClaimOk(s: State, t: State, page: Page, e: Entry)
    requires page in s.claims && page in t.claims && ClaimOk(s, page) && e.Answered? && e.stamp <= e.at
    requires t.claims[page].token == s.claims[page].token && t.claims[page].checkedAt == Some(e.stamp)
    requires t.issued == s.issued && s.clock == t.clock == e.at
    requires LastStamp(t.log, page, s.claims[page].token) == Some(e.stamp)
    requires var before, after := Misses(s.log, page, s.claims[page].token), Misses(t.log, page, s.claims[page].token);
             || (after == [] && t.claims[page].failedChecks == 0)
             || (after == before && t.claims[page].failedChecks == s.claims[page].failedChecks && e.stamp == e.at)
             || (after == before + [e] && t.claims[page].failedChecks == s.claims[page].failedChecks + 1
                 && e.stamp == e.at && (before != [] ==> s.claims[page].checkedAt.value + HOUR < e.at))
    ensures ClaimOk(t, page)
  {}

  lemma {:induction false} VerifyServes(s: State, t: State, page: Page)
    requires ServesOk(s) && OnlyClaim(s, t, page)
    requires || (t.serves == s.serves && t.claims[page].failedChecks == s.claims[page].failedChecks
                 && t.claims[page].verifiedTarget == s.claims[page].verifiedTarget)
             || (t.serves == s.serves[page := t.claims[page].domain] && t.claims[page].verifiedTarget.Some?
                 && Proven(s.lookups, t.claims[page].domain, t.claims[page].token, t.claims[page].verifiedTarget.value)
                 && t.claims[page].failedChecks == 0 && !Elsewhere(s.serves, page, t.claims[page].domain))
    ensures ServesOk(t)
  {
    forall p | p in t.serves ensures ServedOk(t, p) {
      if p in s.serves { assert ServedOk(s, p); }
    }
  }

  lemma {:induction false} VerifyWriteKeepsInv(s: State, r: Request, read: int, at: int)
    requires Inv(s) && r.Verifying? && RequestOk(s, r) && s.clock == at && Timely(r, read, at)
    ensures Inv(VerifyWritten(s, r.page, r.lookup, read, at))
  {
    var t := VerifyWritten(s, r.page, r.lookup, read, at);
    if t != s {
      var e := Answered(r.page, r.lookup, false, read, at);
      assert ClaimOk(s, r.page);
      AnswerKeepsOthers(s, t, r.page, e);
      AnsweredClaimOk(s, t, r.page, e);
      VerifyServes(s, t, r.page);
    }
  }

  /** A takedown is no answer: the claims stand as they were, but for the mark that this one lapsed. */
  lemma {:induction false} TakedownKeepsClaims(m: State, t: State, page: Page, token: Token, at: int)
    requires ClaimsOk(m)
    requires page in m.claims && m.claims[page].token == token
    requires t.claims == m.claims[page := m.claims[page].(lapsedAt := Some(at))]
    requires t.issued == m.issued && t.clock == m.clock
    requires t.log == m.log + [TakenDown(page, token, at)]
    ensures ClaimsOk(t)
  {
    forall p | p in t.claims ensures ClaimOk(t, p) {
      assert ClaimOk(m, p);
      AnswersAppend(m.log, TakenDown(page, token, at), p, t.claims[p].token);
    }
  }

  /** The answer itself, before a takedown that may follow from it. */
  function RecheckAnswered(s: State, page: Page, l: Lookup, at: int): State
    requires page in s.claims
  {
    var failed := FailedChecks(s.claims[page].failedChecks, CheckDns(l));
    s.(claims := s.claims[page := s.claims[page].(checkedAt := Some(at), failedChecks := failed)],
       log := s.log + [Answered(page, l, true, at, at)])
  }

  function LetGo(m: State, page: Page, token: Token, at: int): State
    requires page in m.claims
  {
    m.(claims := m.claims[page := m.claims[page].(lapsedAt := Some(at))], serves := m.serves - {page},
       log := m.log + [TakenDown(page, token, at)])
  }

  /** A sweep's answer that is to be written at `at`. */
  ghost predicate Landing(s: State, r: Request, at: int) {
    && r.Rechecking? && RequestOk(s, r) && s.clock == at && r.now <= at
    && Current(s.claims, r.page, r.lookup.token) && Due(s.claims[r.page], r.now)
  }

  lemma {:induction false} RecheckAnswerKeepsClaims(s: State, r: Request, at: int)
    requires ClaimsOk(s) && RequestsOk(s) && LogOk(s) && Landing(s, r, at)
    ensures var m := RecheckAnswered(s, r.page, r.lookup, at);
            && ClaimsOk(m)
            && RequestsOk(m)
            && LogOk(m)
            && (CheckDns(r.lookup) == Missing ==>
                  Misses(m.log, r.page, r.lookup.token)
                  == Misses(s.log, r.page, r.lookup.token) + [Answered(r.page, r.lookup, true, at, at)])
  {
    assert ClaimOk(s, r.page);
    var m, e := RecheckAnswered(s, r.page, r.lookup, at), Answered(r.page, r.lookup, true, at, at);
    AnswerKeepsOthers(s, m, r.page, e);
    AnsweredClaimOk(s, m, r.page, e);
  }

  lemma {:induction false} RecheckServes(s: State, r: Request, at: int)
    requires ServesOk(s) && Landing(s, r, at)
    ensures ServesOk(RecheckWritten(s, r.page, r.lookup, r.now, at))
  {
    var t := RecheckWritten(s, r.page, r.lookup, r.now, at);
    forall p | p in t.serves ensures ServedOk(t, p) { assert ServedOk(s, p); }
  }

  /** The third miss or a later one takes the page down, and the log says so. */
  lemma {:induction false} TakedownKeepsInv(m: State, t: State, page: Page, token: Token, at: int)
    requires ClaimsOk(m)
    requires RequestsOk(m)
    requires LogOk(m)
    requires page in m.claims && m.claims[page].token == token && m.claims[page].failedChecks >= MAX_FAILED_CHECKS
    requires at == m.clock
    requires var misses := Misses(m.log, page, token); misses != [] && misses[|misses| - 1].at == at
    requires t == LetGo(m, page, token, at)
    ensures ClaimsOk(t)
    ensures RequestsOk(t)
    ensures LogOk(t)
  {
    TakedownKeepsClaims(m, t, page, token, at);
    assert ClaimOk(m, page);
    LogAppend(m, t, TakenDown(page, token, at));
    forall k | 0 <= k < |t.requests| ensures RequestOk(t, t.requests[k]) { assert RequestOk(m, m.requests[k]); }
  }

  /** A sweep's third miss is an answer and then a takedown. */
  lemma {:induction false} MissThenTakedown(s: State, r: Request, at: int)
    requires Landing(s, r, at) && ServesOk(s)
    requires RecheckAnswered(s, r.page, r.lookup, at).claims[r.page].failedChecks >= MAX_FAILED_CHECKS
    requires r.page in s.serves && s.serves[r.page] == r.lookup.domain
    ensures CheckDns(r.lookup) == Missing
    ensures RecheckWritten(s, r.page, r.lookup, r.now, at)
            == LetGo(RecheckAnswered(s, r.page, r.lookup, at), r.page, r.lookup.token, at)
  {
    assert ServedOk(s, r.page);
  }

  lemma {:induction false} TakedownFollows(s: State, r: Request, at: int, m: State)
    requires ClaimsOk(s) && RequestsOk(s) && LogOk(s) && Landing(s, r, at)
    requires m == RecheckAnswered(s, r.page, r.lookup, at) && m.claims[r.page].failedChecks >= MAX_FAILED_CHECKS
    requires CheckDns(r.lookup) == Missing
    ensures var t := LetGo(m, r.page, r.lookup.token, at); ClaimsOk(t) && RequestsOk(t) && LogOk(t)
  {
    RecheckAnswerKeepsClaims(s, r, at);
    TakedownKeepsInv(m, LetGo(m, r.page, r.lookup.token, at), r.page, r.lookup.token, at);
  }

  lemma {:induction false} RecheckWriteKeepsInv(s: State, r: Request, at: int)
    requires Inv(s) && r.Rechecking? && RequestOk(s, r) && s.clock == at && r.now <= at
    ensures Inv(RecheckWritten(s, r.page, r.lookup, r.now, at))
  {
    var t := RecheckWritten(s, r.page, r.lookup, r.now, at);
    if Current(s.claims, r.page, r.lookup.token) && Due(s.claims[r.page], r.now) {
      var m := RecheckAnswered(s, r.page, r.lookup, at);
      RecheckServes(s, r, at);
      if && m.claims[r.page].failedChecks >= MAX_FAILED_CHECKS
         && r.page in s.serves && s.serves[r.page] == r.lookup.domain {
        MissThenTakedown(s, r, at);
        TakedownFollows(s, r, at, m);
      } else {
        RecheckAnswerKeepsClaims(s, r, at);
        assert t == m;
      }
    }
  }

  lemma {:induction false} StepKeepsInv(s: State, step: Step)
    requires Inv(s)
    ensures Inv(Next(s, step))
  {
    if Enabled(s, step) {
      match step {
        case ClaimDomain(_, _, _) => ClaimingKeepsInv(s, step);
        case ReleaseDomain(page) => ReleaseKeepsInv(s, page);
        case Verify(page, target, dns) =>
          LookingKeepsInv(s, Next(s, step), Verifying(page, Asked(s, page, target, dns)));
        case Recheck(page, dns, now) =>
          var l := Asked(s, page, s.claims[page].verifiedTarget.value, dns);
          LookingKeepsInv(s, Next(s, step), Rechecking(page, l, now));
        case Write(k, read, at) =>
          RestKeepsInv(s, k, at);
          var rest := s.(requests := Without(s.requests, k), clock := at);
          assert RequestOk(s, s.requests[k]);
          if s.requests[k].Verifying? { VerifyWriteKeepsInv(rest, s.requests[k], read, at); }
          else { RecheckWriteKeepsInv(rest, s.requests[k], at); }
      }
    }
  }

  lemma {:induction false} RunsAreSound(steps: seq<Step>)
    ensures Inv(Run(steps))
  {
    if steps != [] {
      RunsAreSound(steps[..|steps| - 1]);
      StepKeepsInv(Run(steps[..|steps| - 1]), steps[|steps| - 1]);
    }
  }

  // ---------------------------------------------------------------------------------------------
  // What holds under any interleaving
  // ---------------------------------------------------------------------------------------------

  /**
   * A page that serves a domain has a current claim on it, and some lookup of that domain found both a CNAME to
   * the target on record and a TXT record with that very claim's token. No other page serves the domain.
   */
  lemma {:induction false} ServedDomainsAreProven(steps: seq<Step>, page: Page)
    requires page in Run(steps).serves
    ensures var s := Run(steps);
            && page in s.claims && s.claims[page].domain == s.serves[page]
            && (exists l :: l in s.lookups && l.domain == s.serves[page] && l.token == s.claims[page].token
                            && s.claims[page].verifiedTarget == Some(l.target) && Routed(l) && Owned(l))
            && !Elsewhere(s.serves, page, s.serves[page])
  {
    RunsAreSound(steps);
    assert ServedOk(Run(steps), page);
  }

  /**
   * Both resolvers answered and a record was not there, or the stored domain is no public name. A resolver
   * failure is no miss.
   */
  predicate RecordGone(l: Lookup) {
    !l.dns.proper || (l.dns.cnames.Some? && l.dns.txts.Some? && !(Routed(l) && Owned(l)))
  }

  lemma {:induction false} MissesAreAnswers(log: seq<Entry>, page: Page, token: Token)
    ensures forall e :: e in Misses(log, page, token) ==>
              e in log && About(e, page, token) && e.sweep && RecordGone(e.lookup)
  {
    if log != [] {
      MissesAreAnswers(log[..|log| - 1], page, token);
    }
  }

  lemma {:induction false} MissesAreLookups(s: State, k: nat, page: Page, token: Token)
    requires LogOk(s) && k < |s.log|
    ensures forall e :: e in Misses(s.log[..k], page, token) ==>
              About(e, page, token) && e.sweep && e.lookup in s.lookups && RecordGone(e.lookup)
  {
    MissesAreAnswers(s.log[..k], page, token);
    forall e | e in Misses(s.log[..k], page, token) ensures e.lookup in s.lookups {
      assert e in s.log[..k];
      assert Known(s, e);
    }
  }

  /**
   * A sweep takes a page off its domain only with the third miss or a later one since an answer last
   * verified the claim, each miss more than an hour after the one before. Each is a sweep's answer about that
   * claim's token, from a lookup that both resolvers answered and that lacked a record.
   */
  lemma {:induction false} TakedownsTakeThreeMisses(steps: seq<Step>, k: nat)
    requires k < |Run(steps).log| && Run(steps).log[k].TakenDown?
    ensures var s := Run(steps);
            var misses := Misses(s.log[..k], s.log[k].page, s.log[k].token);
            && |misses| >= 3 && HourApart(misses) && misses[|misses| - 1].at == s.log[k].at
            && (forall e :: e in misses ==>
                  && About(e, s.log[k].page, s.log[k].token) && e.sweep
                  && e.lookup in s.lookups && RecordGone(e.lookup))
  {
    RunsAreSound(steps);
    var s := Run(steps);
    assert Earned(s.log[..k], s.log[k]);
    MissesAreLookups(s, k, s.log[k].page, s.log[k].token);
  }

  /**
   * An answer takes a page off its domain exactly when a sweep's lookup for the page's own claim lacked a
   * record with nothing failing, two such misses were counted already, and the newest check time is an hour
   * old. A resolver failure never does, and neither does a customer's own failed check.
   */
  lemma {:induction false} OnlyThirdMissesTakeDown(steps: seq<Step>, k: nat, read: int, at: int, page: Page)
    requires var s := Run(steps); Enabled(s, Write(k, read, at)) && page in s.serves
    ensures var s := Run(steps);
            var r, t := s.requests[k], Next(s, Write(k, read, at));
            var last := LastStamp(s.log, page, r.lookup.token);
            && (page !in t.serves <==>
                  && r.page == page && r.Rechecking? && RecordGone(r.lookup)
                  && Current(s.claims, page, r.lookup.token)
                  && (last.None? || last.value + HOUR < r.now)
                  && |Misses(s.log, page, r.lookup.token)| == 2)
            && (page !in t.serves ==> t.log[|t.log| - 1] == TakenDown(page, r.lookup.token, at))
  {
    RunsAreSound(steps);
    var s, r := Run(steps), Run(steps).requests[k];
    assert ServedOk(s, page) && ClaimOk(s, page);
    assert RequestOk(s, r);
    var rest := s.(requests := Without(s.requests, k), clock := at);
    if r.Rechecking? {
      RecheckTakesDown(rest, r, at, page);
    } else {
      VerifyTakesNoneDown(rest, r, read, at, page);
    }
  }

  lemma {:induction false} VerifyTakesNoneDown(s: State, r: Request, read: int, at: int, page: Page)
    requires page in s.serves
    ensures page in VerifyWritten(s, r.page, r.lookup, read, at).serves
  {}

  lemma {:induction false} RecheckTakesDown(s: State, r: Request, at: int, page: Page)
    requires r.Rechecking? && page in s.serves && page in s.claims
    requires s.claims[page].domain == s.serves[page] && s.claims[page].failedChecks < MAX_FAILED_CHECKS
    requires Current(s.claims, r.page, r.lookup.token) ==> s.claims[r.page].domain == r.lookup.domain
    ensures var t := RecheckWritten(s, r.page, r.lookup, r.now, at);
            && (page !in t.serves <==>
                  && r.page == page && RecordGone(r.lookup) && Current(s.claims, page, r.lookup.token)
                  && Due(s.claims[page], r.now) && s.claims[page].failedChecks == 2)
            && (page !in t.serves ==> t.log[|t.log| - 1] == TakenDown(page, r.lookup.token, at))
  {}

  /** A customer's verified answer about the claim, with a clock reading from before the given time. */
  predicate PutsBack(e: Entry, page: Page, token: Token, stamp: int) {
    About(e, page, token) && !e.sweep && CheckDns(e.lookup) == Verified && e.stamp < stamp
  }

  lemma {:induction false} PrefixEarned(log: seq<Entry>, n: nat)
    requires AllEarned(log) && InOrder(log) && n <= |log|
    ensures AllEarned(log[..n]) && InOrder(log[..n])
  {
    var init := log[..n];
    forall k | 0 <= k < n ensures Earned(init[..k], init[k]) {
      assert init[..k] == log[..k] && Earned(log[..k], log[k]);
    }
  }

  /** Between an answer and the next sweep's, the row's check time only falls when an answer puts it back. */
  lemma {:induction false} StampsOnlyPutBack(log: seq<Entry>, i: nat, page: Page, token: Token)
    requires AllEarned(log) && InOrder(log) && i < |log| && About(log[i], page, token)
    requires forall m :: i < m < |log| ==> !PutsBack(log[m], page, token, log[i].stamp)
    ensures var last := LastStamp(log, page, token); last.Some? && log[i].stamp <= last.value
  {
    var n := |log| - 1;
    if About(log[n], page, token) {
      assert i < n ==> !PutsBack(log[n], page, token, log[i].stamp);
      assert log[i].at <= log[n].at;
      assert Earned(log[..n], log[n]) && Earned(log[..i], log[i]);
    } else {
      PrefixEarned(log, n);
      StampsOnlyPutBack(log[..n], i, page, token);
    }
  }

  /**
   * However many sweeps overlap, a sweep's answer about a claim lands more than an hour after the check time of
   * any other answer about it, so of overlapping sweeps one at most counts, and a customer's own check puts
   * the next one off. The exception is a customer's verified answer in between that comes with an older clock
   * reading, and then the hour counts from that.
   */
  lemma {:induction false} SweepAnswersAreHoursApart(steps: seq<Step>, i: nat, j: nat)
    requires var log := Run(steps).log;
             i < j < |log| && log[j].Answered? && log[j].sweep && About(log[i], log[j].page, log[j].lookup.token)
    ensures var log := Run(steps).log;
            var last := LastStamp(log[..j], log[j].page, log[j].lookup.token);
            && last.Some? && last.value + HOUR < log[j].at
            && ((forall m :: i < m < j ==> !PutsBack(log[m], log[j].page, log[j].lookup.token, log[i].stamp)) ==>
                  log[i].stamp + HOUR < log[j].at)
  {
    RunsAreSound(steps);
    var log := Run(steps).log;
    assert Earned(log[..j], log[j]);
    var init := log[..j];
    PrefixEarned(log, j);
    LastKnown(init, i, log[j].page, log[j].lookup.token);
    if forall m :: i < m < j ==> !PutsBack(log[m], log[j].page, log[j].lookup.token, log[i].stamp) {
      StampsOnlyPutBack(init, i, log[j].page, log[j].lookup.token);
    }
  }

  lemma {:induction false} LastKnown(log: seq<Entry>, i: nat, page: Page, token: Token)
    requires i < |log| && About(log[i], page, token)
    ensures LastStamp(log, page, token).Some?
  {
    if i < |log| - 1 {
      LastKnown(log[..|log| - 1], i, page, token);
    }
  }

  const PROOF := Dns(true, Some(["edge"]), Some([["t"]]))
  const FOUND := Lookup("d", "t", "edge", PROOF)

  lemma ProofVerifies()
    ensures CheckDns(FOUND) == Verified
  {
    assert Canonical("edge") == "edge";
    assert Joined(["t"]) == Joined([]) + "t";
    assert Routed(FOUND) by { assert Canonical(PROOF.cnames.value[0]) == FOUND.target; }
    assert Owned(FOUND) by { assert Joined(PROOF.txts.value[0]) == FOUND.token; }
  }

  lemma {:induction false} Extend(steps: seq<Step>, s: State, step: Step) returns (more: seq<Step>, t: State)
    requires s == Run(steps)
    ensures more == steps + [step] && t == Run(more) == Next(s, step)
  {
    more, t := steps + [step], Next(s, step);
    assert more[..|steps|] == steps;
  }

  /** A domain verified at 0, in whose second hour a sweep and a customer look it up at once. */
  lemma TwoLookAtOnce() returns (steps: seq<Step>, s: State)
    ensures s == Run(steps)
    ensures s.claims == map[0 := Claim("d", "t", Some("edge"), 0, Some(0), None)] && s.serves == map[0 := "d"]
    ensures s.requests == [Rechecking(0, FOUND, HOUR + 1), Verifying(0, FOUND)] && s.clock == 0
    ensures s.log == [Answered(0, FOUND, false, 0, 0)]
  {
    ProofVerifies();
    steps, s := [], INITIAL;
    steps, s := Extend(steps, s, ClaimDomain(0, "d", "t"));
    steps, s := Extend(steps, s, Verify(0, "edge", PROOF));
    assert s.requests == [Verifying(0, FOUND)];
    steps, s := Extend(steps, s, Write(0, 0, 0));
    assert s.requests == [];
    steps, s := Extend(steps, s, Recheck(0, PROOF, HOUR + 1));
    steps, s := Extend(steps, s, Verify(0, "edge", PROOF));
  }

  /** The sweep's answer lands three milliseconds after the customer's reading of the clock, before their write. */
  lemma CustomerWritesLate() returns (steps: seq<Step>, s: State)
    ensures s == Run(steps) && s.serves == map[0 := "d"] && s.requests == [] && s.clock == HOUR + 6
    ensures s.claims == map[0 := Claim("d", "t", Some("edge"), 0, Some(HOUR + 2), None)]
    ensures s.log == [Answered(0, FOUND, false, 0, 0), Answered(0, FOUND, true, HOUR + 5, HOUR + 5),
                      Answered(0, FOUND, false, HOUR + 2, HOUR + 6)]
  {
    ProofVerifies();
    steps, s := TwoLookAtOnce();
    steps, s := Extend(steps, s, Write(0, HOUR + 5, HOUR + 5));
    assert s.requests == [Verifying(0, FOUND)];
    assert s.claims == map[0 := Claim("d", "t", Some("edge"), 0, Some(HOUR + 5), None)];
    steps, s := Extend(steps, s, Write(0, HOUR + 2, HOUR + 6));
  }

  /** That write puts the check time back, and the next sweep's answer lands within an hour of both. */
  lemma LateVerificationHastensTheSweep() returns (steps: seq<Step>)
    ensures var log := Run(steps).log;
            && |log| == 4 && log[1].Answered? && log[1].sweep && log[3].Answered? && log[3].sweep
            && About(log[1], log[3].page, log[3].lookup.token) && About(log[2], log[3].page, log[3].lookup.token)
            && log[3].at < log[1].stamp + HOUR && log[3].at < log[2].at + HOUR
  {
    ProofVerifies();
    var s;
    steps, s := CustomerWritesLate();
    steps, s := Extend(steps, s, Recheck(0, PROOF, HOUR + 3 + HOUR));
    steps, s := Extend(steps, s, Write(0, HOUR + 3 + HOUR, HOUR + 3 + HOUR));
  }

  ghost predicate Gone(s: State, token: Token) {
    token in s.issued && forall p :: !Current(s.claims, p, token)
  }

  lemma {:induction false} GoneForGood(steps: seq<Step>, more: seq<Step>, token: Token)
    requires Gone(Run(steps), token)
    ensures Gone(Run(steps + more), token)
  {
    if more == [] {
      assert steps + more == steps;
    } else {
      var n := |more| - 1;
      GoneForGood(steps, more[..n], token);
      var s := Run(steps + more[..n]);
      assert (steps + more)[..|steps| + n] == steps + more[..n];
      forall p ensures !Current(Next(s, more[n]).claims, p, token) {
        assert !Current(s.claims, p, token);
      }
    }
  }

  /**
   * Once a claim has been replaced or released, no answer for it is ever believed again, on any page and
   * however late it comes.
   */
  lemma {:induction false} ReplacedClaimsIgnoreOldAnswers(
    steps: seq<Step>, more: seq<Step>, k: nat, read: int, at: int)
    requires Enabled(Run(steps + more), Write(k, read, at))
    requires Gone(Run(steps), Run(steps + more).requests[k].lookup.token)
    ensures var s := Run(steps + more);
            var t := Next(s, Write(k, read, at));
            t.claims == s.claims && t.serves == s.serves && t.log == s.log
  {
    var s := Run(steps + more);
    GoneForGood(steps, more, s.requests[k].lookup.token);
    assert !Current(s.claims, s.requests[k].page, s.requests[k].lookup.token);
  }

  // ---------------------------------------------------------------------------------------------
  // What each step does, told by the rows alone
  // ---------------------------------------------------------------------------------------------

  /** Only both records verify, and only two answers can miss one. */
  lemma {:induction false} VerdictsHaveTheirCause(l: Lookup)
    ensures var routed := && l.dns.cnames.Some?
                          && exists name :: name in l.dns.cnames.value && Canonical(name) == l.target;
            var owned := l.dns.txts.Some? && exists chunks :: chunks in l.dns.txts.value && Joined(chunks) == l.token;
            && (CheckDns(l) == Verified <==> l.dns.proper && routed && owned)
            && (CheckDns(l) == NoAnswer <==>
                  l.dns.proper && !(routed && owned) && (l.dns.cnames == None || l.dns.txts == None))
            && (CheckDns(l) == Missing <==>
                  !l.dns.proper || (l.dns.cnames != None && l.dns.txts != None && !(routed && owned)))
  {
    if l.dns.cnames.Some? {
      if name :| name in l.dns.cnames.value && Canonical(name) == l.target {
        var i :| 0 <= i < |l.dns.cnames.value| && l.dns.cnames.value[i] == name;
      }
    }
    if l.dns.txts.Some? {
      if chunks :| chunks in l.dns.txts.value && Joined(chunks) == l.token {
        var i :| 0 <= i < |l.dns.txts.value| && l.dns.txts.value[i] == chunks;
      }
    }
  }

  /** Two names are one in any case, and with or without the root's dot. */
  lemma {:induction false} CanonicalIgnoresCaseAndRoot(name: string)
    requires name != "" && name[|name| - 1] != '.'
    ensures |Canonical(name)| == |name| && Canonical(name + ".") == Canonical(name)
    ensures forall i :: 0 <= i < |name| ==>
              Canonical(name)[i] as int == name[i] as int + if 65 <= name[i] as int <= 90 then 32 else 0
  {}

  /** A TXT value is its chunks one after the other. */
  lemma {:induction false} JoinedAppends(a: seq<string>, b: seq<string>)
    ensures Joined(a + b) == Joined(a) + Joined(b)
    ensures |b| == 1 ==> Joined(b) == b[0]
  {
    if b == [] {
      assert a + b == a;
    } else {
      JoinedAppends(a, b[..|b| - 1]);
      assert (a + b)[..|a + b| - 1] == a + b[..|b| - 1];
    }
  }

  /** A claim starts with its new token and nothing proven, a release ends it, and neither page serves a domain. */
  lemma {:induction false} ClaimsStartAndEnd(s: State, page: Page, domain: Domain, token: Token)
    requires token !in s.issued
    ensures var t := Next(s, ClaimDomain(page, domain, token));
            && t == s.(serves := t.serves, claims := t.claims, issued := s.issued + {token})
            && page !in t.serves && page in t.claims
            && t.claims[page] == Claim(domain, token, None, 0, None, None)
            && (forall p :: p != page ==> (p in t.serves <==> p in s.serves) && (p in t.claims <==> p in s.claims))
            && (forall p :: p != page && p in s.serves ==> t.serves[p] == s.serves[p])
            && (forall p :: p != page && p in s.claims ==> t.claims[p] == s.claims[p])
    ensures var t := Next(s, ReleaseDomain(page));
            && t == s.(serves := t.serves, claims := t.claims)
            && page !in t.serves && page !in t.claims
            && (forall p :: p != page ==> (p in t.serves <==> p in s.serves) && (p in t.claims <==> p in s.claims))
            && (forall p :: p != page && p in s.serves ==> t.serves[p] == s.serves[p])
            && (forall p :: p != page && p in s.claims ==> t.claims[p] == s.claims[p])
  {}

  /**
   * A customer may look up any claim. A sweep looks up those of pages that serve their claim's domain, against the
   * target it was verified on, when their check time is over an hour old.
   */
  lemma {:induction false} LookupsAreMade(s: State, page: Page, target: string, dns: Dns, now: int)
    requires page in s.claims
    ensures var c := s.claims[page];
            var l := Lookup(c.domain, c.token, target, dns);
            Next(s, Verify(page, target, dns))
            == s.(requests := s.requests + [Verifying(page, l)], lookups := s.lookups + {l})
    ensures var c := s.claims[page];
            var picked := && page in s.serves && s.serves[page] == c.domain && c.verifiedTarget != None
                          && (c.checkedAt == None || c.checkedAt.value + 3_600_000 < now);
            && (picked ==>
                  var l := Lookup(c.domain, c.token, c.verifiedTarget.value, dns);
                  Next(s, Recheck(page, dns, now))
                  == s.(requests := s.requests + [Rechecking(page, l, now)], lookups := s.lookups + {l}))
            && (!picked ==> Next(s, Recheck(page, dns, now)) == s)
  {}

  /**
   * A customer's answer lands on a claim whose token it was asked for. Verified, it puts the page on the domain no
   * other page serves, forgets the misses and the lapse and notes the target. Any other answer moves the check time.
   */
  lemma {:induction false} CustomersAnswersLand(s: State, k: nat, read: int, at: int)
    requires k < |s.requests| && s.requests[k].Verifying? && s.clock <= at && read <= at
    requires CheckDns(s.requests[k].lookup) != Verified ==> read == at
    ensures var t, page, l := Next(s, Write(k, read, at)), s.requests[k].page, s.requests[k].lookup;
            var own := page in s.claims && s.claims[page].token == l.token;
            var free := forall p :: p in s.serves && p != page ==> s.serves[p] != l.domain;
            && t == s.(serves := t.serves, claims := t.claims, log := t.log, clock := at,
                       requests := Without(s.requests, k))
            && (own && CheckDns(l) == Verified && free ==>
                  && t.serves == s.serves[page := l.domain]
                  && t.claims
                     == s.claims[page := Claim(s.claims[page].domain, l.token, Some(l.target), 0, Some(read), None)]
                  && t.log == s.log + [Answered(page, l, false, read, at)])
            && (own && CheckDns(l) != Verified ==>
                  && t.serves == s.serves
                  && t.claims == s.claims[page := s.claims[page].(checkedAt := Some(read))]
                  && t.log == s.log + [Answered(page, l, false, read, at)])
            && (!own || (CheckDns(l) == Verified && !free) ==>
                  t.serves == s.serves && t.claims == s.claims && t.log == s.log)
  {}

  /**
   * A sweep's answer lands on a claim whose token it was asked for and whose check time is over an hour before the
   * sweep began. It counts a miss, forgets them when verified, and leaves them when a resolver failed. With the third
   * the page leaves the domain it serves, and the claim has lapsed.
   */
  lemma {:induction false} SweepsAnswersLand(s: State, k: nat, at: int)
    requires k < |s.requests| && s.requests[k].Rechecking? && s.clock <= at && s.requests[k].now <= at
    ensures var t, page, l := Next(s, Write(k, at, at)), s.requests[k].page, s.requests[k].lookup;
            var lands := && page in s.claims && s.claims[page].token == l.token
                         && (s.claims[page].checkedAt == None
                             || s.claims[page].checkedAt.value + 3_600_000 < s.requests[k].now);
            && t == s.(serves := t.serves, claims := t.claims, log := t.log, clock := at,
                       requests := Without(s.requests, k))
            && (!lands ==> t.serves == s.serves && t.claims == s.claims && t.log == s.log)
            && (lands ==>
                  var c := s.claims[page];
                  var misses := if CheckDns(l) == Verified then 0
                                else if CheckDns(l) == Missing then c.failedChecks + 1 else c.failedChecks;
                  var lapses := misses >= 3 && page in s.serves && s.serves[page] == l.domain;
                  && t.claims == s.claims[page := Claim(c.domain, c.token, c.verifiedTarget, misses, Some(at),
                                                        if lapses then Some(at) else c.lapsedAt)]
                  && t.serves == (if lapses then s.serves - {page} else s.serves)
                  && t.log == s.log + [Answered(page, l, true, at, at)]
                              + if lapses then [TakenDown(page, l.token, at)] else [])
  {}

  // ---------------------------------------------------------------------------------------------
  // The service
  // ---------------------------------------------------------------------------------------------

  /** One sweep's writes, one at a time: `at[i]` is when the i-th lands. */
  function Swept(s: State, batch: seq<Request>, now: int, at: seq<int>): State
    requires |at| == |batch|
  {
    if batch == [] then s
    else
      var n := |batch| - 1;
      RecheckWritten(Swept(s, batch[..n], now, at[..n]), batch[n].page, batch[n].lookup, now, at[n])
  }

  lemma {:induction false} SweptOneMore(s: State, batch: seq<Request>, now: int, at: seq<int>, i: nat)
    requires |at| == |batch| && i < |batch|
    ensures Swept(s, batch[..i + 1], now, at[..i + 1])
            == RecheckWritten(Swept(s, batch[..i], now, at[..i]), batch[i].page, batch[i].lookup, now, at[i])
  {
    assert batch[..i + 1][..i] == batch[..i] && at[..i + 1][..i] == at[..i];
  }

  lemma {:induction false} OneFewer(serves: map<Page, Domain>, page: Page)
    requires page in serves
    ensures |serves - {page}| == |serves| - 1 && (serves - {page}).Keys <= serves.Keys
  {
    assert (serves - {page}).Keys == serves.Keys - {page};
    assert |serves.Keys| == |serves| && |(serves - {page}).Keys| == |serves - {page}|;
  }

  datatype VerifyResult = Live | NotYet(verdict: Verdict) | Taken

  class DomainService {
    var serves: map<Page, Domain>
    var claims: map<Page, Claim>

    constructor ()
      ensures serves == map[] && claims == map[]
    {
      serves, claims := map[], map[];
    }

    /** The rows, with whatever requests are under way and whatever has landed. */
    function View(rest: State): State
      reads this
    {
      rest.(serves := serves, claims := claims)
    }

    /** The page stops serving its old domain at once, and serves the new one only when the new token is proven. */
    method StartClaim(page: Page, domain: Domain, token: Token, ghost rest: State) returns (claim: Option<Claim>)
      requires token !in rest.issued
      modifies this
      ensures claim.None? <==> Elsewhere(old(serves), page, domain)
      ensures var s := old(View(rest));
              var t := if claim.None? then s else Next(s, ClaimDomain(page, domain, token));
              serves == t.serves && claims == t.claims
      ensures claim.Some? ==> page in claims && claims[page] == claim.value && claim.value.token == token
    {
      if Elsewhere(serves, page, domain) {
        return None;
      }
      serves := serves - {page};
      claims := claims[page := Claim(domain, token, None, 0, None, None)];
      return Some(claims[page]);
    }

    method ReleaseDomain(page: Page, ghost rest: State)
      modifies this
      ensures View(rest) == Next(old(View(rest)), Step.ReleaseDomain(page))
      ensures page !in claims && page !in serves
    {
      serves := serves - {page};
      claims := claims - {page};
    }

    /**
     * A customer's check: serves the domain on a verified answer that still belongs to the claim, and otherwise
     * leaves what is served alone.
     */
    method VerifyClaim(page: Page, l: Lookup, read: int, at: int, ghost rest: State) returns (result: VerifyResult)
      modifies this
      ensures var s := old(View(rest));
              var t := VerifyWritten(s, page, l, read, at);
              && serves == t.serves && claims == t.claims
              && (result == Live ==> page in serves && serves[page] == l.domain && t != s)
              && (result == Taken ==> Elsewhere(serves, page, l.domain) && t == s)
              && (result.NotYet? && CheckDns(l) == Verified ==> !Current(claims, page, l.token))
    {
      var verdict := CheckDns(l);
      if verdict != Verified {
        if page in claims && claims[page].token == l.token {
          claims := claims[page := claims[page].(checkedAt := Some(read))];
        }
        return NotYet(verdict);
      }
      if Elsewhere(serves, page, l.domain) {
        return Taken;
      }
      if page !in claims || claims[page].token != l.token {
        return NotYet(NoAnswer);
      }
      claims := claims[page := claims[page].(checkedAt := Some(read), verifiedTarget := Some(l.target),
                                             failedChecks := 0, lapsedAt := None)];
      serves := serves[page := l.domain];
      return Live;
    }

    /** Lands one answer of a sweep that started at `now`. True when the page lost its domain by it. */
    method RecheckOne(page: Page, l: Lookup, now: int, at: int, ghost rest: State) returns (lapsed: bool)
      modifies this
      ensures var s := old(View(rest));
              var t := RecheckWritten(s, page, l, now, at);
              && serves == t.serves && claims == t.claims
              && lapsed == (t.serves != s.serves)
      ensures serves == if lapsed then old(serves) - {page} else old(serves)
      ensures lapsed ==> page in old(serves)
    {
      if page !in claims || claims[page].token != l.token || !Due(claims[page], now) {
        return false;
      }
      var failed := match CheckDns(l)
        case Verified => 0
        case Missing => claims[page].failedChecks + 1
        case NoAnswer => claims[page].failedChecks;
      var row := claims[page].(checkedAt := Some(at), failedChecks := failed);
      claims := claims[page := row];
      if failed < MAX_FAILED_CHECKS || page !in serves || serves[page] != l.domain {
        return false;
      }
      serves := serves - {page};
      claims := claims[page := row.(lapsedAt := Some(at))];
      assert page in old(serves) && page !in serves;
      return true;
    }

    /** A sweep over the batch it looked up. Counts the pages that lost their domain. */
    method RecheckDomains(batch: seq<Request>, now: int, at: seq<int>, ghost rest: State)
      returns (checked: nat, lapsed: nat)
      requires |at| == |batch|
      modifies this
      ensures var t := Swept(old(View(rest)), batch, now, at);
              serves == t.serves && claims == t.claims
      ensures checked == |batch| && lapsed == |old(serves)| - |serves|
      ensures serves.Keys <= old(serves).Keys
    {
      checked, lapsed := |batch|, 0;
      ghost var before := View(rest);
      ghost var t := before;
      for i := 0 to |batch|
        invariant t == Swept(before, batch[..i], now, at[..i])
        invariant t == View(t)
        invariant lapsed == |before.serves| - |serves|
        invariant serves.Keys <= before.serves.Keys
      {
        SweptOneMore(before, batch, now, at, i);
        ghost var had := serves;
        var gone := RecheckOne(batch[i].page, batch[i].lookup, now, at[i], t);
        t := RecheckWritten(t, batch[i].page, batch[i].lookup, now, at[i]);
        if gone {
          OneFewer(had, batch[i].page);
          lapsed := lapsed + 1;
        }
      }
      assert batch[..|batch|] == batch && at[..|at|] == at;
    }
  }
}
