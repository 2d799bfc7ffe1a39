/** What lies behind a bearer authentication: every success goes back to reads that found everything in
    order, and an uninterrupted request succeeds exactly if everything is. */
module OAuthAuthentication {
  import opened Prelude
  import opened OAuthTables
  import opened OAuthTransactions
  import opened OAuthProtocol
  import opened OAuthSafety
  import opened OAuthOutcomes
  import opened OAuthTheorems

  // ---------------------------------------------------------------- the reads

  /** The token is enabled, unrevoked and unexpired, and its user is active. */
  predicate Live(s: Sys, t: Id, now: Time) {
    t in s.db.tokens && s.db.tokens[t].enabled && s.db.tokens[t].revokedAt.None? &&
    s.db.tokens[t].user in s.dir.users && s.dir.users[s.db.tokens[t].user] == Active &&
    (s.db.tokens[t].expiresAt.None? || s.db.tokens[t].expiresAt.value > now)
  }

  predicate LinkInOrder(cfg: Settings, s: Sys, t: Id) {
    t in s.db.links && s.db.links[t].revokedAt.None? && s.db.links[t].resource == cfg.resourceUrl
  }

  predicate RecordInOrder(s: Sys, r: Id) {
    r in s.db.refreshes && s.db.refreshes[r].revokedAt.None?
  }

  predicate FamilyInOrder(s: Sys, f: Id) {
    f in s.db.families && s.db.families[f].revokedAt.None?
  }

  // ---------------------------------------------------------------- an uninterrupted request

  /** Who a token stands for, if anybody. */
  function Who(cfg: Settings, s: Sys, t: Id, now: Time): Option<Identity> {
    if !Live(s, t, now) then None
    else
      var user := s.db.tokens[t].user;
      match s.db.tokens[t].kind
      case Static => if t in s.db.links then None else Some(Identity(t, user, [], None))
      case OAuth =>
        if LinkInOrder(cfg, s, t) && RecordInOrder(s, s.db.links[t].refresh) &&
           FamilyInOrder(s, s.db.refreshes[s.db.links[t].refresh].family)
        then
          var rec := s.db.refreshes[s.db.links[t].refresh];
          Some(Identity(t, user, rec.scopes, Some(rec.family)))
        else None
      case Unknown => None
  }

  /** The four reads of a request, one after the other. */
  function AfterReads(cfg: Settings, s: Sys, job: Id, t: Id, now: Time): Sys {
    Next(cfg, Next(cfg, Next(cfg, Next(cfg, s, BearerRead(job, t, now)), BearerLink(job)), BearerRefresh(job)),
         BearerFamily(job))
  }

  /** The pending requests after some of the reads. */
  function Pending(s: Sys, job: Id, t: Id, seen: Option<Reads>): Sys
    requires t in s.db.tokens
  {
    match seen
    case None => s.(bearers := s.bearers - {job})
    case Some(x) => s.(bearers := s.bearers[job := BearerJob(t, s.db.tokens[t], x)])
  }

  lemma ReadOnce(cfg: Settings, s: Sys, job: Id, t: Id, now: Time)
    requires job !in s.bearers && s.clock <= now && t in s.db.tokens
    ensures Next(cfg, s, BearerRead(job, t, now)) ==
            Pending(s, job, t, if Live(s, t, now) then Some(SawToken) else None)
  {
    assert s.bearers - {job} == s.bearers;
  }

  /** A read that is due takes place; one that is not changes nothing. */
  lemma ReadNext(cfg: Settings, s: Sys, job: Id, t: Id, seen: Option<Reads>, e: Event)
    requires t in s.db.tokens && job !in s.bearers
    requires e == BearerLink(job) || e == BearerRefresh(job) || e == BearerFamily(job)
    ensures var mid := Pending(s, job, t, seen);
            Next(cfg, mid, e) ==
              if Enabled(mid, e) then Pending(s, job, t, NextReads(cfg, mid, e)) else mid
  {
    var mid := Pending(s, job, t, seen);
    if Enabled(mid, e) {
      var x := NextReads(cfg, mid, e);
      assert mid.bearers - {job} == s.bearers - {job};
      if x.Some? {
        assert mid.bearers[job := mid.bearers[job].(seen := x.value)] ==
               s.bearers[job := mid.bearers[job].(seen := x.value)];
      }
    }
  }

  /** What a read adds to what was seen before it. */
  function AfterLink(cfg: Settings, db: Tables, t: Id, record: McpToken, seen: Option<Reads>): Option<Reads> {
    if seen.Some? && seen.value.SawToken? then ReadLink(db, cfg, t, record) else seen
  }

  function AfterRefresh(db: Tables, seen: Option<Reads>): Option<Reads> {
    if seen.Some? && seen.value.SawLink? then ReadRefresh(db, seen.value.link) else seen
  }

  function AfterFamily(db: Tables, t: Id, record: McpToken, seen: Option<Reads>): Option<Reads> {
    if seen.Some? && seen.value.SawRefresh? then ReadFamily(db, t, record, seen.value.refresh) else seen
  }

  lemma LinkStage(cfg: Settings, s: Sys, job: Id, t: Id, seen: Option<Reads>)
    requires t in s.db.tokens && job !in s.bearers
    ensures Next(cfg, Pending(s, job, t, seen), BearerLink(job)) ==
            Pending(s, job, t, AfterLink(cfg, s.db, t, s.db.tokens[t], seen))
  {
    ReadNext(cfg, s, job, t, seen, BearerLink(job));
  }

  lemma RefreshStage(cfg: Settings, s: Sys, job: Id, t: Id, seen: Option<Reads>)
    requires t in s.db.tokens && job !in s.bearers
    ensures Next(cfg, Pending(s, job, t, seen), BearerRefresh(job)) ==
            Pending(s, job, t, AfterRefresh(s.db, seen))
  {
    ReadNext(cfg, s, job, t, seen, BearerRefresh(job));
  }

  lemma FamilyStage(cfg: Settings, s: Sys, job: Id, t: Id, seen: Option<Reads>)
    requires t in s.db.tokens && job !in s.bearers
    ensures Next(cfg, Pending(s, job, t, seen), BearerFamily(job)) ==
            Pending(s, job, t, AfterFamily(s.db, t, s.db.tokens[t], seen))
  {
    ReadNext(cfg, s, job, t, seen, BearerFamily(job));
  }

  /** What the reads see in the end. */
  function Seen(cfg: Settings, s: Sys, t: Id, now: Time): Option<Reads> {
    match Who(cfg, s, t, now)
    case None => None
    case Some(who) => Some(Resolved(who))
  }

  lemma SeenInTurn(cfg: Settings, s: Sys, t: Id, now: Time)
    requires t in s.db.tokens
    ensures var db, record := s.db, s.db.tokens[t];
            var first := if Live(s, t, now) then Some(SawToken) else None;
            AfterFamily(db, t, record, AfterRefresh(db, AfterLink(cfg, db, t, record, first))) ==
            Seen(cfg, s, t, now)
  {
  }

  lemma ReadsSee(cfg: Settings, s: Sys, job: Id, t: Id, now: Time)
    requires job !in s.bearers && s.clock <= now && t in s.db.tokens
    ensures AfterReads(cfg, s, job, t, now) == Pending(s, job, t, Seen(cfg, s, t, now))
  {
    var record := s.db.tokens[t];
    var first := if Live(s, t, now) then Some(SawToken) else None;
    var second := AfterLink(cfg, s.db, t, record, first);
    var third := AfterRefresh(s.db, second);
    ReadOnce(cfg, s, job, t, now);
    LinkStage(cfg, s, job, t, first);
    RefreshStage(cfg, s, job, t, second);
    FamilyStage(cfg, s, job, t, third);
    SeenInTurn(cfg, s, t, now);
  }

  lemma CommitTells(cfg: Settings, s: Sys, job: Id, t: Id, now: Time)
    requires job !in s.bearers && s.clock <= now && t in s.db.tokens
    ensures Authenticated(Pending(s, job, t, Seen(cfg, s, t, now)), BearerCommit(job, now)) == Who(cfg, s, t, now)
  {
  }

  lemma UnknownToken(cfg: Settings, s: Sys, job: Id, t: Id, now: Time)
    requires job !in s.bearers && t !in s.db.tokens
    ensures AfterReads(cfg, s, job, t, now) == s
  {
  }

  /** A request that nothing interrupts is authenticated exactly as the one its token stands for. */
  lemma UninterruptedAuthentication(cfg: Settings, s: Sys, job: Id, t: Id, now: Time)
    requires job !in s.bearers && s.clock <= now
    ensures Authenticated(AfterReads(cfg, s, job, t, now), BearerCommit(job, now)) == Who(cfg, s, t, now)
  {
    if t in s.db.tokens {
      ReadsSee(cfg, s, job, t, now);
      CommitTells(cfg, s, job, t, now);
    } else {
      UnknownToken(cfg, s, job, t, now);
    }
  }

  // ---------------------------------------------------------------- behind every success

  /** The steps at which a pending request made its reads. */
  datatype Trace = Trace(token: nat, link: nat, record: nat, family: nat)

  /** The first read: the request saw a live token. */
  predicate TokenRead(s: Sys, e: Event, job: Id, t: Id, row: McpToken) {
    e.BearerRead? && e.job == job && e.token == t && Live(s, t, e.now) && s.db.tokens[t] == row
  }

  /** The second read of an OAuth token, and of a static one. */
  predicate LinkRead(cfg: Settings, s: Sys, e: Event, job: Id, t: Id, link: AccessLink) {
    e == BearerLink(job) && LinkInOrder(cfg, s, t) && s.db.links[t] == link
  }

  predicate NoLinkRead(s: Sys, e: Event, job: Id, t: Id) {
    e == BearerLink(job) && t !in s.db.links
  }

  predicate RecordRead(s: Sys, e: Event, job: Id, r: Id, rec: RefreshToken) {
    e == BearerRefresh(job) && RecordInOrder(s, r) && s.db.refreshes[r] == rec
  }

  predicate FamilyRead(s: Sys, e: Event, job: Id, f: Id) {
    e == BearerFamily(job) && FamilyInOrder(s, f)
  }

  ghost predicate LinkTraced(cfg: Settings, ss: seq<Sys>, es: seq<Event>, n: nat, job: Id, j: BearerJob, tr: Trace,
                             link: AccessLink)
    requires n <= |es| < |ss|
  {
    j.record.kind == OAuth && tr.token < tr.link < n &&
    LinkRead(cfg, ss[tr.link], es[tr.link], job, j.token, link)
  }

  ghost predicate RecordTraced(cfg: Settings, ss: seq<Sys>, es: seq<Event>, n: nat, job: Id, j: BearerJob, tr: Trace,
                               link: AccessLink, rec: RefreshToken)
    requires n <= |es| < |ss|
  {
    LinkTraced(cfg, ss, es, n, job, j, tr, link) && tr.link < tr.record < n &&
    RecordRead(ss[tr.record], es[tr.record], job, link.refresh, rec)
  }

  /** The request reports its token's user; for an OAuth token the scopes and the family of the record
      that it read, a family that was unrevoked when it was read after that. */
  ghost predicate IdentityTraced(cfg: Settings, ss: seq<Sys>, es: seq<Event>, n: nat, job: Id, j: BearerJob,
                                 tr: Trace, who: Identity)
    requires n <= |es| < |ss|
  {
    if who.family.None? then
      who == Identity(j.token, j.record.user, [], None) && j.record.kind == Static && tr.token < tr.link < n &&
      NoLinkRead(ss[tr.link], es[tr.link], job, j.token)
    else
      exists link, rec ::
        RecordTraced(cfg, ss, es, n, job, j, tr, link, rec) && tr.record < tr.family < n &&
        FamilyRead(ss[tr.family], es[tr.family], job, rec.family) &&
        who == Identity(j.token, j.record.user, rec.scopes, Some(rec.family))
  }

  ghost predicate Traced(cfg: Settings, ss: seq<Sys>, es: seq<Event>, n: nat, job: Id, j: BearerJob, tr: Trace)
    requires n <= |es| < |ss|
  {
    tr.token < n && TokenRead(ss[tr.token], es[tr.token], job, j.token, j.record) &&
    match j.seen
    case SawToken => true
    case SawLink(link) => LinkTraced(cfg, ss, es, n, job, j, tr, link)
    case SawRefresh(link, rec) => RecordTraced(cfg, ss, es, n, job, j, tr, link, rec)
    case Resolved(who) => IdentityTraced(cfg, ss, es, n, job, j, tr, who)
  }

  lemma OthersLeaveRequests(cfg: Settings, s: Sys, e: Event, job: Id)
    requires Enabled(s, e) && !OnBearer(e) && job in Next(cfg, s, e).bearers
    ensures job in s.bearers && s.bearers[job] == Next(cfg, s, e).bearers[job]
  {
    if !OnDashboard(e) && !OnCache(e) { LockedSame(cfg, s, e); }
  }

  predicate ReadsOn(cfg: Settings, s: Sys, e: Event, job: Id, j: BearerJob) {
    Enabled(s, e) && (e == BearerLink(job) || e == BearerRefresh(job) || e == BearerFamily(job)) &&
    NextReads(cfg, s, e) == Some(j.seen) && j == s.bearers[job].(seen := j.seen)
  }

  /** How a step leaves a pending request: as it was, newly begun, or one read further. */
  predicate CarriesOn(cfg: Settings, s: Sys, e: Event, job: Id, j: BearerJob) {
    (job in s.bearers && s.bearers[job] == j) ||
    (TokenRead(s, e, job, j.token, j.record) && j.seen == SawToken) ||
    ReadsOn(cfg, s, e, job, j)
  }

  lemma ReadCarriesOn(cfg: Settings, s: Sys, e: Event, job: Id)
    requires Enabled(s, e) && (e.BearerLink? || e.BearerRefresh? || e.BearerFamily?)
    requires job in AfterRead(s, e.job, NextReads(cfg, s, e)).bearers
    ensures CarriesOn(cfg, s, e, job, AfterRead(s, e.job, NextReads(cfg, s, e)).bearers[job])
  {
  }

  lemma BearerCarriesOn(cfg: Settings, s: Sys, e: Event, job: Id)
    requires Enabled(s, e) && OnBearer(e) && job in StepBearer(cfg, s, e).bearers
    ensures CarriesOn(cfg, s, e, job, StepBearer(cfg, s, e).bearers[job])
  {
    if !e.BearerRead? && !e.BearerCommit? { ReadCarriesOn(cfg, s, e, job); }
  }

  lemma JobAfter(cfg: Settings, s: Sys, e: Event, job: Id)
    requires job in Next(cfg, s, e).bearers
    ensures CarriesOn(cfg, s, e, job, Next(cfg, s, e).bearers[job])
  {
    if Enabled(s, e) {
      if OnBearer(e) {
        BearerIs(cfg, s, e);
        BearerCarriesOn(cfg, s, e, job);
      } else {
        OthersLeaveRequests(cfg, s, e, job);
      }
    }
  }

  lemma LaterTraced(cfg: Settings, ss: seq<Sys>, es: seq<Event>, n: nat, m: nat, job: Id, j: BearerJob, tr: Trace)
    requires n <= m <= |es| < |ss| && Traced(cfg, ss, es, n, job, j, tr)
    ensures Traced(cfg, ss, es, m, job, j, tr)
  {
    if j.seen.Resolved? && j.seen.identity.family.Some? {
      var link, rec :| RecordTraced(cfg, ss, es, n, job, j, tr, link, rec) && tr.record < tr.family < n &&
                       FamilyRead(ss[tr.family], es[tr.family], job, rec.family) &&
                       j.seen.identity == Identity(j.token, j.record.user, rec.scopes, Some(rec.family));
      assert RecordTraced(cfg, ss, es, m, job, j, tr, link, rec);
    }
  }

  /** One more read, traced. */
  lemma ReadTraced(cfg: Settings, ss: seq<Sys>, es: seq<Event>, n: nat, job: Id, j: BearerJob, tr: Trace)
    returns (tr': Trace)
    requires n < |es| < |ss| && ReadsOn(cfg, ss[n], es[n], job, j)
    requires Traced(cfg, ss, es, n, job, ss[n].bearers[job], tr)
    ensures Traced(cfg, ss, es, n + 1, job, j, tr')
  {
    var was := ss[n].bearers[job];
    match es[n]
    case BearerLink(_) => tr' := tr.(link := n);
    case BearerRefresh(_) =>
      tr' := tr.(record := n);
      RecordIsRead(cfg, ss, es, n, job, was, was.seen.link, tr);
    case BearerFamily(_) =>
      tr' := tr.(family := n);
      FamilyIsRead(cfg, ss, es, n, job, was, was.seen.link, was.seen.refresh, tr);
  }

  lemma RecordIsRead(cfg: Settings, ss: seq<Sys>, es: seq<Event>, n: nat, job: Id, j: BearerJob, link: AccessLink,
                     tr: Trace)
    requires n < |es| < |ss| && es[n] == BearerRefresh(job) && ReadRefresh(ss[n].db, link).Some?
    requires LinkTraced(cfg, ss, es, n, job, j, tr, link)
    ensures RecordTraced(cfg, ss, es, n + 1, job, j.(seen := ReadRefresh(ss[n].db, link).value), tr.(record := n), link,
                         ReadRefresh(ss[n].db, link).value.refresh)
  {
  }

  lemma FamilyIsRead(cfg: Settings, ss: seq<Sys>, es: seq<Event>, n: nat, job: Id, j: BearerJob, link: AccessLink,
                     rec: RefreshToken, tr: Trace)
    requires n < |es| < |ss| && es[n] == BearerFamily(job)
    requires ReadFamily(ss[n].db, j.token, j.record, rec).Some? && RecordTraced(cfg, ss, es, n, job, j, tr, link, rec)
    ensures var seen := ReadFamily(ss[n].db, j.token, j.record, rec).value;
            IdentityTraced(cfg, ss, es, n + 1, job, j.(seen := seen), tr.(family := n), seen.identity)
  {
    var seen := ReadFamily(ss[n].db, j.token, j.record, rec).value;
    assert RecordTraced(cfg, ss, es, n + 1, job, j.(seen := seen), tr.(family := n), link, rec);
  }

  lemma BegunTraced(cfg: Settings, ss: seq<Sys>, es: seq<Event>, n: nat, job: Id, j: BearerJob) returns (tr: Trace)
    requires n < |es| < |ss| && TokenRead(ss[n], es[n], job, j.token, j.record) && j.seen == SawToken
    ensures Traced(cfg, ss, es, n + 1, job, j, tr)
  {
    tr := Trace(n, 0, 0, 0);
  }

  lemma StepTraced(cfg: Settings, ss: seq<Sys>, es: seq<Event>, n: nat, job: Id, j: BearerJob, tr: Trace)
    returns (tr': Trace)
    requires n < |es| < |ss| && CarriesOn(cfg, ss[n], es[n], job, j)
    requires job in ss[n].bearers ==> Traced(cfg, ss, es, n, job, ss[n].bearers[job], tr)
    ensures Traced(cfg, ss, es, n + 1, job, j, tr')
  {
    if job in ss[n].bearers && ss[n].bearers[job] == j {
      tr' := tr;
      LaterTraced(cfg, ss, es, n, n + 1, job, j, tr);
    } else if TokenRead(ss[n], es[n], job, j.token, j.record) && j.seen == SawToken {
      tr' := BegunTraced(cfg, ss, es, n, job, j);
    } else {
      tr' := ReadTraced(cfg, ss, es, n, job, j, tr);
    }
  }

  lemma {:induction false} TraceOf(cfg: Settings, ss: seq<Sys>, es: seq<Event>, n: nat, job: Id) returns (tr: Trace)
    requires Run(cfg, ss, es) && ss[0].bearers == map[] && n < |ss| && job in ss[n].bearers
    ensures Traced(cfg, ss, es, n, job, ss[n].bearers[job], tr)
  {
    tr := Trace(0, 0, 0, 0);
    if n > 0 {
      if job in ss[n - 1].bearers { tr := TraceOf(cfg, ss, es, n - 1, job); }
      assert ss[n] == Next(cfg, ss[n - 1], es[n - 1]);
      JobAfter(cfg, ss[n - 1], es[n - 1], job);
      tr := StepTraced(cfg, ss, es, n - 1, job, ss[n].bearers[job], tr);
    }
  }

  /** Behind every successful authentication of a run there are the reads of its own request, in their
      order, each of which found what it read in order at that moment. */
  lemma AuthenticationIsEarned(cfg: Settings, ss: seq<Sys>, es: seq<Event>, n: nat) returns (tr: Trace)
    requires Run(cfg, ss, es) && ss[0].bearers == map[] && n < |es| && Authenticated(ss[n], es[n]).Some?
    ensures var job, who := es[n].job, Authenticated(ss[n], es[n]).value;
            var j := ss[n].bearers[job];
            tr.token < n && TokenRead(ss[tr.token], es[tr.token], job, j.token, j.record) &&
            IdentityTraced(cfg, ss, es, n, job, j, tr, who)
  {
    tr := TraceOf(cfg, ss, es, n, es[n].job);
  }

  /** The last step of a request succeeds exactly if its token is still enabled and unrevoked. It then stamps
      the token's last use, and otherwise changes no table. */
  lemma StampOutcome(cfg: Settings, s: Sys, e: Event)
    requires e.BearerCommit? && e.job in s.bearers && s.bearers[e.job].seen.Resolved? && s.clock <= e.now
    ensures var t := s.bearers[e.job].token;
            if t in s.db.tokens && s.db.tokens[t].enabled && s.db.tokens[t].revokedAt.None?
            then Authenticated(s, e) == Some(s.bearers[e.job].seen.identity) &&
                 Next(cfg, s, e).db == s.db.(tokens := s.db.tokens[t := s.db.tokens[t].(lastUsedAt := Some(e.now))])
            else Authenticated(s, e) == None && Next(cfg, s, e).db == s.db
  {
    BearerIs(cfg, s, e);
  }
}
