/** What the two backfills achieve on every well-linked legacy database. */
module MigrationTheorems {
  import opened Prelude
  import opened OAuthTables
  import opened Migrations
  import OAuthRevocation

  // ---------------------------------------------------------------- one record

  /** The record, its access token and their link are all revoked. A record whose token row has been
      deleted only has its own time. */
  ghost predicate RecordClosed(d: Legacy, r: Id)
    requires r in d.refreshes
  {
    d.refreshes[r].revokedAt.Some? &&
    (d.refreshes[r].mcpToken.Some? ==>
       var t := d.refreshes[r].mcpToken.value;
       t in d.tokens && !d.tokens[t].enabled && d.tokens[t].revokedAt.Some? &&
       t in d.links && d.links[t].revokedAt.Some?)
  }

  /** The rows of the record are the same in both states. */
  ghost predicate RecordSame(d: Legacy, d': Legacy, r: Id)
    requires r in d.refreshes
  {
    r in d'.refreshes && d'.refreshes[r] == d.refreshes[r] &&
    (d.refreshes[r].mcpToken.Some? ==>
       var t := d.refreshes[r].mcpToken.value;
       (t in d.tokens <==> t in d'.tokens) && (t in d.tokens ==> d'.tokens[t] == d.tokens[t]) &&
       (t in d.links <==> t in d'.links) && (t in d.links ==> d'.links[t] == d.links[t]))
  }

  lemma SweepCloses(e: Legacy, picked: map<Id, Id>, keep: bool, d': Legacy, r: Id)
    requires Joined(e, picked) && Swept(e, picked, keep, d')
    requires r in e.refreshes && LinkedRecord(e, r) && Marked(e, r)
    ensures RecordClosed(d', r)
  {
    assert d'.refreshes[r] == RefreshAfter(e, keep, r);
    if e.refreshes[r].mcpToken.Some? {
      var t := e.refreshes[r].mcpToken.value;
      assert d'.tokens[t] == TokenAfter(e, picked, keep, t);
      assert d'.links[t] == LinkAfter(e, keep, t);
    }
  }

  lemma SweepSpares(e: Legacy, picked: map<Id, Id>, keep: bool, d': Legacy, r: Id)
    requires Joined(e, picked) && Swept(e, picked, keep, d')
    requires WellLinked(e) && r in e.refreshes && !Marked(e, r)
    ensures RecordSame(e, d', r)
  {
    assert LinkedRecord(e, r);
    assert d'.refreshes[r] == RefreshAfter(e, keep, r);
    if e.refreshes[r].mcpToken.Some? {
      var t := e.refreshes[r].mcpToken.value;
      forall u | u in picked ensures u in e.links && e.links[u].refresh == picked[u] {
        assert LinkedRecord(e, picked[u]);
      }
      assert d'.tokens[t] == TokenAfter(e, picked, keep, t);
      assert d'.links[t] == LinkAfter(e, keep, t);
    }
  }

  lemma SweepKeepsLinks(e: Legacy, picked: map<Id, Id>, keep: bool, d': Legacy)
    requires Joined(e, picked) && Swept(e, picked, keep, d') && WellLinked(e)
    ensures WellLinked(d')
  {
    forall r | r in d'.refreshes ensures LinkedRecord(d', r) {
      assert LinkedRecord(e, r) && d'.refreshes[r] == RefreshAfter(e, keep, r);
      if e.refreshes[r].mcpToken.Some? {
        assert d'.links[e.refreshes[r].mcpToken.value] == LinkAfter(e, keep, e.refreshes[r].mcpToken.value);
      }
    }
    forall t | t in d'.links ensures LinkedLink(d', t) {
      assert LinkedLink(e, t) && d'.links[t] == LinkAfter(e, keep, t);
      assert d'.refreshes[e.links[t].refresh] == RefreshAfter(e, keep, e.links[t].refresh);
    }
  }

  // ---------------------------------------------------------------- nothing is un-revoked

  ghost predicate RefreshKept(d: Legacy, d': Legacy, r: Id)
    requires r in d.refreshes && r in d'.refreshes
  {
    (d.refreshes[r].revokedAt.Some? ==> d'.refreshes[r].revokedAt.Some?) &&
    d'.refreshes[r] == d.refreshes[r].(revokedAt := d'.refreshes[r].revokedAt)
  }

  ghost predicate TokenKept(d: Legacy, d': Legacy, t: Id)
    requires t in d.tokens && t in d'.tokens
  {
    (d.tokens[t].revokedAt.Some? ==> d'.tokens[t].revokedAt.Some?) &&
    (d'.tokens[t].enabled ==> d.tokens[t].enabled) &&
    d'.tokens[t] == d.tokens[t].(enabled := d'.tokens[t].enabled, revokedAt := d'.tokens[t].revokedAt)
  }

  ghost predicate LinkKept(d: Legacy, d': Legacy, t: Id)
    requires t in d.links && t in d'.links
  {
    (d.links[t].revokedAt.Some? ==> d'.links[t].revokedAt.Some?) &&
    d'.links[t] == d.links[t].(revokedAt := d'.links[t].revokedAt)
  }

  /** No row disappears, no time is taken back, no token is enabled again, no other field changes. */
  ghost predicate NeverUnrevokes(d: Legacy, d': Legacy) {
    d'.refreshes.Keys == d.refreshes.Keys && d'.tokens.Keys == d.tokens.Keys &&
    d'.links.Keys == d.links.Keys &&
    (forall r {:trigger RefreshKept(d, d', r)} | r in d.refreshes :: RefreshKept(d, d', r)) &&
    (forall t {:trigger TokenKept(d, d', t)} | t in d.tokens :: TokenKept(d, d', t)) &&
    (forall t {:trigger LinkKept(d, d', t)} | t in d.links :: LinkKept(d, d', t))
  }

  lemma SweepNeverUnrevokes(e: Legacy, picked: map<Id, Id>, keep: bool, d': Legacy, d: Legacy)
    requires Joined(e, picked) && Swept(e, picked, keep, d')
    requires d.refreshes == e.refreshes && d.tokens == e.tokens && d.links == e.links
    ensures NeverUnrevokes(d, d')
  {
    forall r | r in d.refreshes ensures RefreshKept(d, d', r) {
      assert d'.refreshes[r] == RefreshAfter(e, keep, r);
    }
    forall t | t in d.tokens ensures TokenKept(d, d', t) {
      assert d'.tokens[t] == TokenAfter(e, picked, keep, t);
    }
    forall t | t in d.links ensures LinkKept(d, d', t) {
      assert d'.links[t] == LinkAfter(e, keep, t);
    }
  }

  lemma NeverUnrevokesTwice(d: Legacy, d1: Legacy, d2: Legacy)
    requires NeverUnrevokes(d, d1) && NeverUnrevokes(d1, d2)
    ensures NeverUnrevokes(d, d2)
  {
    forall r | r in d.refreshes ensures RefreshKept(d, d2, r) {
      assert RefreshKept(d, d1, r) && RefreshKept(d1, d2, r);
    }
    forall t | t in d.tokens ensures TokenKept(d, d2, t) {
      assert TokenKept(d, d1, t) && TokenKept(d1, d2, t);
    }
    forall t | t in d.links ensures LinkKept(d, d2, t) {
      assert LinkKept(d, d1, t) && LinkKept(d1, d2, t);
    }
  }

  // ---------------------------------------------------------------- families

  ghost predicate InFamily(d: Legacy, f: Id, r: Id) {
    r in d.refreshes && d.refreshes[r].family == f
  }

  ghost predicate ClosedFamily(d: Legacy, f: Id) {
    f in d.families && d.families[f].revokedAt.Some? &&
    forall r {:trigger RecordClosed(d, r)} | InFamily(d, f, r) :: RecordClosed(d, r)
  }

  ghost predicate FamilyUntouched(d: Legacy, d': Legacy, f: Id) {
    forall r {:trigger RecordSame(d, d', r)} | InFamily(d, f, r) :: RecordSame(d, d', r)
  }

  lemma SameLinks(d: Legacy, e: Legacy)
    requires WellLinked(d) && e.refreshes == d.refreshes && e.tokens == d.tokens && e.links == d.links
    ensures WellLinked(e)
  {
    forall r | r in e.refreshes ensures LinkedRecord(e, r) { assert LinkedRecord(d, r); }
    forall t | t in e.links ensures LinkedLink(e, t) { assert LinkedLink(d, t); }
  }

  lemma SweptFamily(e: Legacy, picked: map<Id, Id>, keep: bool, d': Legacy, f: Id)
    requires Joined(e, picked) && Swept(e, picked, keep, d') && WellLinked(e) && f in e.families
    ensures e.families[f].revokedAt.Some? ==> ClosedFamily(d', f)
    ensures e.families[f].revokedAt.None? ==> FamilyUntouched(e, d', f)
  {
    forall r | InFamily(e, f, r)
      ensures if e.families[f].revokedAt.Some? then RecordClosed(d', r) else RecordSame(e, d', r)
    {
      assert LinkedRecord(e, r);
      if e.families[f].revokedAt.Some? { SweepCloses(e, picked, keep, d', r); }
      else { SweepSpares(e, picked, keep, d', r); }
    }
    forall r | InFamily(d', f, r) ensures InFamily(e, f, r) {
      assert d'.refreshes[r] == RefreshAfter(e, keep, r);
    }
  }

  /** The same rows under families that differ give the same untouched records. */
  lemma UntouchedFrom(d: Legacy, e: Legacy, d': Legacy, f: Id)
    requires e.refreshes == d.refreshes && e.tokens == d.tokens && e.links == d.links
    requires FamilyUntouched(e, d', f)
    ensures FamilyUntouched(d, d', f)
  {
    forall r | InFamily(d, f, r) ensures RecordSame(d, d', r) {
      assert InFamily(e, f, r) && RecordSame(e, d', r);
    }
  }

  ghost predicate SomeRevoked(d: Legacy, f: Id) {
    exists r :: InFamily(d, f, r) && d.refreshes[r].revokedAt.Some?
  }

  /** The record's access token is revoked, and not just by the record's own rotation: the record was
      never rotated, or the Dashboard's revocation of the token is on record. */
  predicate ShowsRevocation(d: Legacy, audited: set<Id>, r: Id) {
    r in d.refreshes && d.refreshes[r].mcpToken.Some? &&
    var t := d.refreshes[r].mcpToken.value;
    t in d.tokens && d.tokens[t].revokedAt.Some? && (d.refreshes[r].rotatedAt.Some? ==> t in audited)
  }

  ghost predicate SomeEvident(d: Legacy, audited: set<Id>, f: Id) {
    exists r :: InFamily(d, f, r) && ShowsRevocation(d, audited, r)
  }

  lemma LeastKeys(refreshes: map<Id, RefreshToken>, at: map<Id, Time>, least: map<Id, Time>, f: Id)
    requires at.Keys <= refreshes.Keys && LeastOf(refreshes, at, least)
    ensures f in least <==> exists r :: r in at && refreshes[r].family == f
  {
  }

  lemma EvidentKeys(d: Legacy, audited: set<Id>, f: Id)
    ensures (exists r :: r in EvidentTimes(d, audited) && d.refreshes[r].family == f) <==> SomeEvident(d, audited, f)
  {
    if r :| r in EvidentTimes(d, audited) && d.refreshes[r].family == f {
      assert InFamily(d, f, r);
    }
    if r :| InFamily(d, f, r) && ShowsRevocation(d, audited, r) {
      assert r in EvidentTimes(d, audited);
    }
  }

  lemma RevokedKeys(d: Legacy, f: Id)
    ensures (exists r :: r in RevokedTimes(d) && d.refreshes[r].family == f) <==> SomeRevoked(d, f)
  {
    if r :| r in RevokedTimes(d) && d.refreshes[r].family == f {
      assert InFamily(d, f, r);
    }
    if r :| InFamily(d, f, r) && d.refreshes[r].revokedAt.Some? {
      assert r in RevokedTimes(d);
    }
  }

  lemma InsertedFamily(d: Legacy, least: map<Id, Time>, f: Id)
    requires LeastOf(d.refreshes, RevokedTimes(d), least)
    ensures var e := Inserted(d, least);
            (f in e.families <==> exists r :: InFamily(d, f, r)) &&
            (f in e.families && e.families[f].revokedAt.Some? <==> SomeRevoked(d, f))
  {
    var e := Inserted(d, least);
    LeastKeys(d.refreshes, RevokedTimes(d), least, f);
    RevokedKeys(d, f);
    if r :| InFamily(d, f, r) {
      assert f in e.families;
    }
    if f in e.families {
      var r :| r in d.refreshes && d.refreshes[r].family == f;
      assert InFamily(d, f, r);
    }
  }

  lemma DatedFamilies(d: Legacy, audited: set<Id>, least: map<Id, Time>)
    requires LeastOf(d.refreshes, EvidentTimes(d, audited), least)
    ensures Dated(d, least).families.Keys == d.families.Keys
    ensures forall f | f in d.families ::
      Dated(d, least).families[f].revokedAt.Some? <==> d.families[f].revokedAt.Some? || SomeEvident(d, audited, f)
    ensures forall f | f in d.families && (d.families[f].revokedAt.Some? || !SomeEvident(d, audited, f)) ::
      Dated(d, least).families[f] == d.families[f]
  {
    forall f ensures f in least <==> SomeEvident(d, audited, f) {
      LeastKeys(d.refreshes, EvidentTimes(d, audited), least, f);
      EvidentKeys(d, audited, f);
    }
  }

  // ---------------------------------------------------------------- the two migrations

  /** After 0011 a family is revoked exactly if one of its records was, and then it is closed. */
  lemma CreatedCloses(d: Legacy, d': Legacy, f: Id)
    requires Created(d, d') && WellLinked(d)
    ensures f in d'.families <==> exists r :: InFamily(d, f, r)
    ensures f in d'.families && d'.families[f].revokedAt.Some? <==> SomeRevoked(d, f)
    ensures f in d'.families && d'.families[f].revokedAt.Some? ==> ClosedFamily(d', f)
    ensures f in d'.families && d'.families[f].revokedAt.None? ==> FamilyUntouched(d, d', f)
    ensures WellLinked(d') && NeverUnrevokes(d, d')
  {
    var least, picked :|
      LeastOf(d.refreshes, RevokedTimes(d), least) && Joined(Inserted(d, least), picked) &&
      Swept(Inserted(d, least), picked, false, d');
    InsertedFamily(d, least, f);
    SweptFrom(d, Inserted(d, least), picked, false, d', f);
  }

  /** The sweep seen from the tables whose families it was given. */
  lemma SweptFrom(d: Legacy, e: Legacy, picked: map<Id, Id>, keep: bool, d': Legacy, f: Id)
    requires WellLinked(d) && e.refreshes == d.refreshes && e.tokens == d.tokens && e.links == d.links
    requires Joined(e, picked) && Swept(e, picked, keep, d')
    ensures d'.families == e.families && WellLinked(d') && NeverUnrevokes(d, d')
    ensures f in e.families && e.families[f].revokedAt.Some? ==> ClosedFamily(d', f)
    ensures f in e.families && e.families[f].revokedAt.None? ==> FamilyUntouched(d, d', f)
  {
    SameLinks(d, e);
    SweepKeepsLinks(e, picked, keep, d');
    SweepNeverUnrevokes(e, picked, keep, d', d);
    if f in e.families {
      SweptFamily(e, picked, keep, d', f);
      if e.families[f].revokedAt.None? { UntouchedFrom(d, e, d', f); }
    }
  }

  /** After 0012 a family is revoked exactly if it was before or a token shows it; every revoked
      family is closed, and the others are untouched. */
  lemma BackfilledCloses(d: Legacy, audited: set<Id>, d': Legacy, f: Id)
    requires Backfilled(d, audited, d') && WellLinked(d)
    ensures d'.families.Keys == d.families.Keys
    ensures f in d.families ==>
            (d'.families[f].revokedAt.Some? <==> d.families[f].revokedAt.Some? || SomeEvident(d, audited, f))
    ensures f in d.families && d'.families[f].revokedAt.Some? ==> ClosedFamily(d', f)
    ensures f in d.families && d'.families[f].revokedAt.None? ==> FamilyUntouched(d, d', f)
    ensures WellLinked(d') && NeverUnrevokes(d, d')
  {
    var least, picked :|
      LeastOf(d.refreshes, EvidentTimes(d, audited), least) && Joined(Dated(d, least), picked) &&
      Swept(Dated(d, least), picked, true, d');
    DatedFamilies(d, audited, least);
    var e := Dated(d, least);
    assert e.refreshes == d.refreshes && e.tokens == d.tokens && e.links == d.links;
    SweptFrom(d, e, picked, true, d', f);
  }

  /** An untouched family shows the same evidence before and after. */
  lemma SameEvidence(d: Legacy, d': Legacy, audited: set<Id>, f: Id)
    requires FamilyUntouched(d, d', f) && NeverUnrevokes(d, d')
    ensures SomeEvident(d, audited, f) == SomeEvident(d', audited, f)
    ensures SomeRevoked(d, f) == SomeRevoked(d', f)
  {
    forall r ensures InFamily(d, f, r) <==> InFamily(d', f, r) {
      if r in d.refreshes { assert RefreshKept(d, d', r); }
    }
    forall r | InFamily(d, f, r)
      ensures ShowsRevocation(d, audited, r) == ShowsRevocation(d', audited, r) &&
              d.refreshes[r].revokedAt == d'.refreshes[r].revokedAt
    {
      assert RecordSame(d, d', r);
    }
  }

  /** Both backfills: every family ends up closed, or untouched and without a sign of revocation;
      and it is left alone exactly if none of its records was revoked and no token of it shows a
      revocation, as when only rotated records have revoked tokens. */
  lemma BackfillsDecide(d: Legacy, d1: Legacy, audited: set<Id>, d2: Legacy, f: Id)
    requires Created(d, d1) && Backfilled(d1, audited, d2) && WellLinked(d)
    ensures f in d2.families <==> exists r :: InFamily(d, f, r)
    ensures NeverUnrevokes(d, d2)
    ensures f in d2.families ==>
            if SomeRevoked(d, f) || SomeEvident(d, audited, f) then ClosedFamily(d2, f)
            else d2.families[f].revokedAt.None? && FamilyUntouched(d, d2, f) &&
                 !SomeRevoked(d2, f) && !SomeEvident(d2, audited, f)
  {
    CreatedCloses(d, d1, f);
    BackfilledCloses(d1, audited, d2, f);
    NeverUnrevokesTwice(d, d1, d2);
    if f in d1.families && d1.families[f].revokedAt.None? {
      SameEvidence(d, d1, audited, f);
      if d2.families[f].revokedAt.None? {
        UntouchedTwice(d, d1, d2, f);
        SameEvidence(d, d2, audited, f);
      }
    }
  }

  lemma UntouchedTwice(d: Legacy, d1: Legacy, d2: Legacy, f: Id)
    requires FamilyUntouched(d, d1, f) && FamilyUntouched(d1, d2, f)
    ensures FamilyUntouched(d, d2, f)
  {
    forall r | InFamily(d, f, r) ensures RecordSame(d, d2, r) {
      assert RecordSame(d, d1, r) && InFamily(d1, f, r) && RecordSame(d1, d2, r);
    }
  }

  // ---------------------------------------------------------------- the times

  /** Everything of the record bears the time, where it does not keep a time of its own. */
  ghost predicate RecordDated(d: Legacy, d': Legacy, r: Id, at: Time, keep: bool)
    requires r in d.refreshes
  {
    r in d'.refreshes && d'.refreshes[r] == d.refreshes[r].(revokedAt := Dating(keep, d.refreshes[r].revokedAt, at)) &&
    (d.refreshes[r].mcpToken.Some? ==>
       var t := d.refreshes[r].mcpToken.value;
       t in d.tokens && t in d'.tokens && t in d.links && t in d'.links &&
       d'.tokens[t] == d.tokens[t].(enabled := false, revokedAt := Dating(keep, d.tokens[t].revokedAt, at)) &&
       d'.links[t] == d.links[t].(revokedAt := Dating(keep, d.links[t].revokedAt, at)))
  }

  function Dating(keep: bool, was: Option<Time>, at: Time): Option<Time> {
    match was
    case Some(_) => if keep then was else Some(at)
    case None => Some(at)
  }

  lemma SweepDates(e: Legacy, picked: map<Id, Id>, keep: bool, d': Legacy, r: Id)
    requires Joined(e, picked) && Swept(e, picked, keep, d') && WellLinked(e)
    requires r in e.refreshes && Marked(e, r)
    ensures RecordDated(e, d', r, MarkTime(e, r), keep)
  {
    assert LinkedRecord(e, r) && d'.refreshes[r] == RefreshAfter(e, keep, r);
    if e.refreshes[r].mcpToken.Some? {
      var t := e.refreshes[r].mcpToken.value;
      assert t in picked && LinkedRecord(e, picked[t]);
      assert d'.tokens[t] == TokenAfter(e, picked, keep, t);
      assert d'.links[t] == LinkAfter(e, keep, t);
    }
  }

  /** 0011 gives a family the earliest time of its revoked records, and all its rows that same time. */
  lemma CreatedTimes(d: Legacy, d': Legacy, f: Id, r: Id) returns (at: Time)
    requires Created(d, d') && WellLinked(d) && InFamily(d, f, r) && SomeRevoked(d, f)
    ensures f in d'.families && d'.families[f].revokedAt == Some(at)
    ensures exists x :: InFamily(d, f, x) && d.refreshes[x].revokedAt == Some(at)
    ensures forall x | InFamily(d, f, x) && d.refreshes[x].revokedAt.Some? :: at <= d.refreshes[x].revokedAt.value
    ensures RecordDated(d, d', r, at, false)
  {
    var least, picked :|
      LeastOf(d.refreshes, RevokedTimes(d), least) && Joined(Inserted(d, least), picked) &&
      Swept(Inserted(d, least), picked, false, d');
    var e := Inserted(d, least);
    InsertedFamily(d, least, f);
    SameLinks(d, e);
    at := least[f];
    var x :| x in RevokedTimes(d) && d.refreshes[x].family == f && RevokedTimes(d)[x] == at;
    assert InFamily(d, f, x);
    forall y | InFamily(d, f, y) && d.refreshes[y].revokedAt.Some? ensures at <= d.refreshes[y].revokedAt.value {
      assert y in RevokedTimes(d);
    }
    SweepDates(e, picked, false, d', r);
  }

  /** 0012 keeps every time that is there; a newly revoked family gets the earliest time that its tokens
      show, and those of its rows that have none get the family's. */
  lemma BackfilledTimes(d: Legacy, audited: set<Id>, d': Legacy, f: Id, r: Id) returns (at: Time)
    requires Backfilled(d, audited, d') && WellLinked(d) && InFamily(d, f, r) && f in d.families
    requires d.families[f].revokedAt.Some? || SomeEvident(d, audited, f)
    ensures f in d'.families && d'.families[f].revokedAt == Some(at)
    ensures d.families[f].revokedAt.Some? ==> d.families[f].revokedAt == Some(at)
    ensures d.families[f].revokedAt.None? ==> EarliestShown(d, audited, f, at)
    ensures RecordDated(d, d', r, at, true)
  {
    var least, picked :|
      LeastOf(d.refreshes, EvidentTimes(d, audited), least) && Joined(Dated(d, least), picked) &&
      Swept(Dated(d, least), picked, true, d');
    var e := Dated(d, least);
    DatedFamilies(d, audited, least);
    SameLinks(d, e);
    at := e.families[f].revokedAt.value;
    if d.families[f].revokedAt.None? { LeastShown(d, audited, least, f); }
    SweepDates(e, picked, true, d', r);
  }

  ghost predicate EarliestShown(d: Legacy, audited: set<Id>, f: Id, at: Time) {
    (exists x :: InFamily(d, f, x) && ShowsRevocation(d, audited, x) &&
                 d.tokens[d.refreshes[x].mcpToken.value].revokedAt.value == at) &&
    forall x | InFamily(d, f, x) && ShowsRevocation(d, audited, x) ::
      at <= d.tokens[d.refreshes[x].mcpToken.value].revokedAt.value
  }

  lemma LeastShown(d: Legacy, audited: set<Id>, least: map<Id, Time>, f: Id)
    requires LeastOf(d.refreshes, EvidentTimes(d, audited), least) && SomeEvident(d, audited, f)
    ensures f in least && EarliestShown(d, audited, f, least[f])
  {
    EvidentKeys(d, audited, f);
    LeastKeys(d.refreshes, EvidentTimes(d, audited), least, f);
    var x :| x in EvidentTimes(d, audited) && d.refreshes[x].family == f && EvidentTimes(d, audited)[x] == least[f];
    assert InFamily(d, f, x) && ShowsRevocation(d, audited, x);
    forall y | InFamily(d, f, y) && ShowsRevocation(d, audited, y)
      ensures least[f] <= d.tokens[d.refreshes[y].mcpToken.value].revokedAt.value
    {
      assert y in EvidentTimes(d, audited);
    }
  }

  // ---------------------------------------------------------------- running 0012 again

  /** A sweep over closed families only repeats what is there. */
  lemma SweepOfClosed(d: Legacy, picked: map<Id, Id>, d': Legacy)
    requires WellLinked(d) && Joined(d, picked) && Swept(d, picked, true, d')
    requires forall r | r in d.refreshes && Marked(d, r) :: RecordClosed(d, r)
    ensures d' == d
  {
    forall r | r in d.refreshes ensures d'.refreshes[r] == d.refreshes[r] {
      assert d'.refreshes[r] == RefreshAfter(d, true, r);
    }
    forall t | t in d.tokens ensures d'.tokens[t] == d.tokens[t] {
      assert d'.tokens[t] == TokenAfter(d, picked, true, t);
      assert t in picked ==> RecordClosed(d, picked[t]);
    }
    forall t | t in d.links ensures d'.links[t] == d.links[t] {
      assert d'.links[t] == LinkAfter(d, true, t);
      assert LinkedLink(d, t);
    }
    assert d'.refreshes == d.refreshes && d'.tokens == d.tokens && d'.links == d.links;
  }

  /** Every family is closed, or has nothing that 0012 would act on. */
  ghost predicate Settled(d: Legacy, audited: set<Id>) {
    forall f | f in d.families ::
      if d.families[f].revokedAt.Some? then ClosedFamily(d, f) else !SomeEvident(d, audited, f)
  }

  lemma BackfilledSettles(d: Legacy, audited: set<Id>, d': Legacy)
    requires Backfilled(d, audited, d') && WellLinked(d)
    ensures Settled(d', audited) && WellLinked(d')
  {
    BackfilledCloses(d, audited, d', 0);
    forall f | f in d'.families
      ensures if d'.families[f].revokedAt.Some? then ClosedFamily(d', f) else !SomeEvident(d', audited, f)
    {
      BackfilledCloses(d, audited, d', f);
      if d'.families[f].revokedAt.None? { SameEvidence(d, d', audited, f); }
    }
  }

  lemma SettledDates(d: Legacy, audited: set<Id>, least: map<Id, Time>)
    requires Settled(d, audited) && LeastOf(d.refreshes, EvidentTimes(d, audited), least)
    ensures Dated(d, least) == d
  {
    DatedFamilies(d, audited, least);
    assert Dated(d, least).families == d.families;
  }

  lemma SettledRecords(d: Legacy, audited: set<Id>)
    requires Settled(d, audited)
    ensures forall r | r in d.refreshes && Marked(d, r) :: RecordClosed(d, r)
  {
    forall r | r in d.refreshes && Marked(d, r) ensures RecordClosed(d, r) {
      var f := d.refreshes[r].family;
      assert ClosedFamily(d, f) && InFamily(d, f, r);
    }
  }

  /** Running 0012 a second time changes nothing. */
  lemma BackfillIsIdempotent(d: Legacy, audited: set<Id>, d': Legacy, d'': Legacy)
    requires Backfilled(d, audited, d') && Backfilled(d', audited, d'') && WellLinked(d)
    ensures d'' == d'
  {
    BackfilledSettles(d, audited, d');
    var least, picked :|
      LeastOf(d'.refreshes, EvidentTimes(d', audited), least) && Joined(Dated(d', least), picked) &&
      Swept(Dated(d', least), picked, true, d'');
    SettledDates(d', audited, least);
    SettledRecords(d', audited);
    SweepOfClosed(d', picked, d'');
  }

  /** Where every record of the family still has its access token, closed here is closed for the running protocol. */
  lemma ClosedForTheProtocol(d: Legacy, db: Tables, f: Id)
    requires ClosedFamily(d, f)
    requires db.families == d.families && db.refreshes == d.refreshes
    requires db.tokens == d.tokens && db.links == d.links
    requires forall r | InFamily(d, f, r) :: d.refreshes[r].mcpToken.Some?
    ensures OAuthRevocation.Closed(db, f)
  {
    forall r | r in db.refreshes && db.refreshes[r].family == f ensures RecordClosed(d, r) {
      assert InFamily(d, f, r);
    }
  }
}
