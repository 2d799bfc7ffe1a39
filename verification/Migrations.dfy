/** The two backfills that introduced token families: 0011 creates the families and closes the
    ones a revocation had reached, 0012 adds the revocations made in the Dashboard. */
module Migrations {
  import opened Prelude
  import opened OAuthTables

  /** The four tables the backfills touch. */
  datatype Legacy = Legacy(
    families: map<Id, Family>,
    refreshes: map<Id, RefreshToken>,
    tokens: map<Id, McpToken>,
    links: map<Id, AccessLink>)

  /** The access token of the record has its link, and the link names the record. */
  ghost predicate LinkedRecord(d: Legacy, r: Id)
    requires r in d.refreshes
  {
    d.refreshes[r].mcpToken.Some? ==>
      var t := d.refreshes[r].mcpToken.value;
      t in d.tokens && t in d.links && d.links[t].refresh == r
  }

  ghost predicate LinkedLink(d: Legacy, t: Id)
    requires t in d.links
  {
    d.links[t].refresh in d.refreshes && d.refreshes[d.links[t].refresh].mcpToken == Some(t)
  }

  /** Records and links name each other, so no two records share an access token. */
  ghost predicate WellLinked(d: Legacy) {
    (forall r {:trigger LinkedRecord(d, r)} | r in d.refreshes :: LinkedRecord(d, r)) &&
    (forall t {:trigger LinkedLink(d, t)} | t in d.links :: LinkedLink(d, t))
  }

  /** The record belongs to a revoked family. */
  predicate Marked(d: Legacy, r: Id)
    requires r in d.refreshes
  {
    var f := d.refreshes[r].family;
    f in d.families && d.families[f].revokedAt.Some?
  }

  function MarkTime(d: Legacy, r: Id): Time
    requires r in d.refreshes && Marked(d, r)
  {
    d.families[d.refreshes[r].family].revokedAt.value
  }

  // ---------------------------------------------------------------- grouping and joining

  /** least gives, for each family of a record in at, the least time there. */
  ghost predicate LeastOf(refreshes: map<Id, RefreshToken>, at: map<Id, Time>, least: map<Id, Time>)
    requires at.Keys <= refreshes.Keys
  {
    (forall r | r in at :: refreshes[r].family in least && least[refreshes[r].family] <= at[r]) &&
    (forall f | f in least :: exists r :: r in at && refreshes[r].family == f && at[r] == least[f])
  }

  /** The aggregate of a GROUP BY family_id. */
  method LeastByFamily(refreshes: map<Id, RefreshToken>, at: map<Id, Time>) returns (least: map<Id, Time>)
    requires at.Keys <= refreshes.Keys
    ensures LeastOf(refreshes, at, least)
  {
    least := map[];
    var todo := at.Keys;
    while todo != {}
      invariant todo <= at.Keys
      invariant forall r | r in at && r !in todo ::
        refreshes[r].family in least && least[refreshes[r].family] <= at[r]
      invariant forall f | f in least :: exists r :: r in at && refreshes[r].family == f && at[r] == least[f]
      decreases |todo|
    {
      var r :| r in todo;
      var f := refreshes[r].family;
      if f !in least || at[r] < least[f] { least := least[f := at[r]]; }
      todo := todo - {r};
    }
  }

  /** Which record an UPDATE that joins a token with its records takes the time from: if several
      name the token, any one of them. */
  ghost predicate Joined(d: Legacy, picked: map<Id, Id>) {
    (forall t | t in picked :: picked[t] in d.refreshes && d.refreshes[picked[t]].mcpToken == Some(t) &&
                               Marked(d, picked[t])) &&
    (forall r | r in d.refreshes && d.refreshes[r].mcpToken.Some? && Marked(d, r) ::
       d.refreshes[r].mcpToken.value in picked)
  }

  method Join(d: Legacy) returns (picked: map<Id, Id>)
    ensures Joined(d, picked)
  {
    picked := map[];
    var todo := d.refreshes.Keys;
    while todo != {}
      invariant todo <= d.refreshes.Keys
      invariant forall t | t in picked ::
        picked[t] in d.refreshes && d.refreshes[picked[t]].mcpToken == Some(t) && Marked(d, picked[t])
      invariant forall r | r in d.refreshes && r !in todo && d.refreshes[r].mcpToken.Some? && Marked(d, r) ::
        d.refreshes[r].mcpToken.value in picked
      decreases |todo|
    {
      var r :| r in todo;
      if d.refreshes[r].mcpToken.Some? && Marked(d, r) { picked := picked[d.refreshes[r].mcpToken.value := r]; }
      todo := todo - {r};
    }
  }

  // ---------------------------------------------------------------- what the statements compute

  function RevokedTimes(d: Legacy): map<Id, Time> {
    map r | r in d.refreshes && d.refreshes[r].revokedAt.Some? :: d.refreshes[r].revokedAt.value
  }

  function Inserted(d: Legacy, least: map<Id, Time>): Legacy {
    d.(families := map f | f in (set r | r in d.refreshes :: d.refreshes[r].family) ::
         Family(if f in least then Some(least[f]) else None))
  }

  /** The time an update leaves: 0011 overwrites, 0012 keeps a time that is already there. */
  function Stamp(keep: bool, was: Option<Time>, at: Time): Option<Time> {
    if keep && was.Some? then was else Some(at)
  }

  function RefreshAfter(d: Legacy, keep: bool, r: Id): RefreshToken
    requires r in d.refreshes
  {
    if Marked(d, r) then d.refreshes[r].(revokedAt := Stamp(keep, d.refreshes[r].revokedAt, MarkTime(d, r)))
    else d.refreshes[r]
  }

  function TokenAfter(d: Legacy, picked: map<Id, Id>, keep: bool, t: Id): McpToken
    requires t in d.tokens && (t in picked ==> picked[t] in d.refreshes && Marked(d, picked[t]))
  {
    if t in picked
    then d.tokens[t].(enabled := false, revokedAt := Stamp(keep, d.tokens[t].revokedAt, MarkTime(d, picked[t])))
    else d.tokens[t]
  }

  function LinkAfter(d: Legacy, keep: bool, t: Id): AccessLink
    requires t in d.links
  {
    var r := d.links[t].refresh;
    if r in d.refreshes && Marked(d, r)
    then d.links[t].(revokedAt := Stamp(keep, d.links[t].revokedAt, MarkTime(d, r)))
    else d.links[t]
  }

  function RefreshesSwept(d: Legacy, keep: bool): Legacy {
    d.(refreshes := map r | r in d.refreshes :: RefreshAfter(d, keep, r))
  }

  ghost function TokensSwept(d: Legacy, picked: map<Id, Id>, keep: bool): Legacy
    requires Joined(d, picked)
  {
    d.(tokens := map t | t in d.tokens :: TokenAfter(d, picked, keep, t))
  }

  function LinksSwept(d: Legacy, keep: bool): Legacy {
    d.(links := map t | t in d.links :: LinkAfter(d, keep, t))
  }

  /** What the three updates do to each row, in terms of the tables before them. */
  ghost predicate Swept(d: Legacy, picked: map<Id, Id>, keep: bool, d': Legacy)
    requires Joined(d, picked)
  {
    d'.families == d.families && d'.refreshes.Keys == d.refreshes.Keys &&
    d'.tokens.Keys == d.tokens.Keys && d'.links.Keys == d.links.Keys &&
    (forall r | r in d.refreshes :: d'.refreshes[r] == RefreshAfter(d, keep, r)) &&
    (forall t | t in d.tokens :: d'.tokens[t] == TokenAfter(d, picked, keep, t)) &&
    (forall t | t in d.links :: d'.links[t] == LinkAfter(d, keep, t))
  }

  /** Sweeping the records does not change what the later updates join on. */
  lemma SameMarks(d: Legacy, keep: bool)
    ensures forall r | r in d.refreshes ::
      Marked(RefreshesSwept(d, keep), r) == Marked(d, r) &&
      (Marked(d, r) ==> MarkTime(RefreshesSwept(d, keep), r) == MarkTime(d, r)) &&
      RefreshesSwept(d, keep).refreshes[r].mcpToken == d.refreshes[r].mcpToken
  {
    var d1 := RefreshesSwept(d, keep);
    forall r | r in d.refreshes
      ensures d1.refreshes[r].family == d.refreshes[r].family && d1.refreshes[r].mcpToken == d.refreshes[r].mcpToken
    {
    }
  }

  lemma SameJoin(d: Legacy, picked: map<Id, Id>, keep: bool)
    requires Joined(RefreshesSwept(d, keep), picked)
    ensures Joined(d, picked)
  {
    SameMarks(d, keep);
  }

  lemma SweptInTurn(d: Legacy, picked: map<Id, Id>, keep: bool)
    requires Joined(RefreshesSwept(d, keep), picked) && Joined(d, picked)
    ensures Swept(d, picked, keep, LinksSwept(TokensSwept(RefreshesSwept(d, keep), picked, keep), keep))
  {
    SameMarks(d, keep);
    var d1 := RefreshesSwept(d, keep);
    var d2 := TokensSwept(d1, picked, keep);
    var d3 := LinksSwept(d2, keep);
    forall t | t in d.tokens ensures d3.tokens[t] == TokenAfter(d, picked, keep, t) {}
    forall t | t in d.links ensures d3.links[t] == LinkAfter(d, keep, t) {
      assert d2.links[t] == d.links[t];
    }
  }

  /** A record whose access token shows that its family was revoked: rotation alone revokes the
      token of a rotated record, so for those only a Dashboard revocation counts. */
  predicate Evident(d: Legacy, audited: set<Id>, r: Id)
    requires r in d.refreshes
  {
    var rec := d.refreshes[r];
    rec.mcpToken.Some? && rec.mcpToken.value in d.tokens &&
    d.tokens[rec.mcpToken.value].revokedAt.Some? &&
    (rec.rotatedAt.None? || rec.mcpToken.value in audited)
  }

  function EvidentTimes(d: Legacy, audited: set<Id>): map<Id, Time> {
    map r | r in d.refreshes && Evident(d, audited, r) :: d.tokens[d.refreshes[r].mcpToken.value].revokedAt.value
  }

  function Dated(d: Legacy, least: map<Id, Time>): Legacy {
    d.(families := map f | f in d.families ::
         if f in least && d.families[f].revokedAt.None? then Family(Some(least[f])) else d.families[f])
  }

  /** d' is a possible result of 0011 on d. */
  ghost predicate Created(d: Legacy, d': Legacy) {
    exists least, picked ::
      LeastOf(d.refreshes, RevokedTimes(d), least) && Joined(Inserted(d, least), picked) &&
      Swept(Inserted(d, least), picked, false, d')
  }

  /** d' is a possible result of 0012 on d. */
  ghost predicate Backfilled(d: Legacy, audited: set<Id>, d': Legacy) {
    exists least, picked ::
      LeastOf(d.refreshes, EvidentTimes(d, audited), least) && Joined(Dated(d, least), picked) &&
      Swept(Dated(d, least), picked, true, d')
  }

  // ---------------------------------------------------------------- the migrations

  class LegacyDatabase {
    var families: map<Id, Family>
    var refreshes: map<Id, RefreshToken>
    var tokens: map<Id, McpToken>
    var links: map<Id, AccessLink>
    const audited: set<Id>  // access tokens with a Dashboard revocation on record

    function View(): Legacy
      reads this
    {
      Legacy(families, refreshes, tokens, links)
    }

    constructor (d: Legacy, audited: set<Id>)
      ensures View() == d && this.audited == audited
    {
      families, refreshes, tokens, links := d.families, d.refreshes, d.tokens, d.links;
      this.audited := audited;
    }

    method SweepRefreshes(keep: bool)
      modifies this`refreshes
      ensures View() == RefreshesSwept(old(View()), keep)
    {
      refreshes := map r | r in refreshes :: RefreshAfter(View(), keep, r);
    }

    method SweepTokens(picked: map<Id, Id>, keep: bool)
      requires Joined(View(), picked)
      modifies this`tokens
      ensures View() == TokensSwept(old(View()), picked, keep)
    {
      tokens := map t | t in tokens :: TokenAfter(View(), picked, keep, t);
    }

    method SweepLinks(keep: bool)
      modifies this`links
      ensures View() == LinksSwept(old(View()), keep)
    {
      links := map t | t in links :: LinkAfter(View(), keep, t);
    }

    /** The updates of the record, token and link tables, one after the other. */
    method Sweep(keep: bool) returns (picked: map<Id, Id>)
      modifies this`refreshes, this`tokens, this`links
      ensures Joined(old(View()), picked) && Swept(old(View()), picked, keep, View())
    {
      ghost var d := View();
      SweepRefreshes(keep);
      picked := Join(View());
      SweepTokens(picked, keep);
      SweepLinks(keep);
      SameJoin(d, picked, keep);
      SweptInTurn(d, picked, keep);
    }

    method Upgrade0011()
      modifies this
      ensures Created(old(View()), View())
    {
      ghost var d := View();
      var least := LeastByFamily(refreshes, RevokedTimes(View()));
      families := Inserted(View(), least).families;
      assert View() == Inserted(d, least);
      var picked := Sweep(false);
    }

    method Upgrade0012()
      modifies this
      ensures Backfilled(old(View()), audited, View())
    {
      ghost var d := View();
      var least := LeastByFamily(refreshes, EvidentTimes(View(), audited));
      families := Dated(View(), least).families;
      assert View() == Dated(d, least);
      var picked := Sweep(true);
    }
  }
}
