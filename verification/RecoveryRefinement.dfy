/** The bounded recovery cache does only what the protocol allows: a lookup is a number of evictions
    followed by the step that hands out an entry. */
module RecoveryRefinement {
  import opened Prelude
  import opened OAuthTables
  import opened OAuthTransactions
  import opened OAuthServer
  import opened RecoveryCache
  import opened OAuthProtocol
  import opened OAuthTheorems

  /** Every entry that was ever handed out stands for a cell of the protocol, and the cache returns the
      entries of the resident cells. */
  ghost predicate Mirrors(s: Sys, entries: map<Id, RecoveryEntry>, names: map<RecoveryEntry, Id>)
    reads names.Keys
  {
    (forall o | o in names ::
      names[o] in s.cells && s.cells[names[o]].filled == o.cached &&
      (s.cells[names[o]].pending.Some? ==> o.locked)) &&
    s.resident.Keys == entries.Keys &&
    (forall r {:trigger entries[r]} {:trigger s.resident[r]} | r in entries ::
      entries[r] in names && names[entries[r]] == s.resident[r] && s.cells[s.resident[r]].refresh == r)
  }

  function Evictions(gone: seq<Id>): seq<Event> {
    seq(|gone|, i requires 0 <= i < |gone| => Evict(gone[i]))
  }

  /** The state after the given steps. */
  function After(cfg: Settings, s: Sys, es: seq<Event>): Sys {
    if es == [] then s else Next(cfg, After(cfg, s, es[..|es| - 1]), es[|es| - 1])
  }

  lemma {:induction false} Evicted(cfg: Settings, s: Sys, gone: seq<Id>)
    ensures After(cfg, s, Evictions(gone)) == s.(resident := s.resident - Keys(gone))
  {
    var es := Evictions(gone);
    if gone == [] {
      assert s.resident - {} == s.resident;
    } else {
      var n := |gone| - 1;
      assert es[..n] == Evictions(Front(gone)) && es[n] == Evict(Last(gone));
      Evicted(cfg, s, Front(gone));
      assert s.resident - Keys(Front(gone)) - {Last(gone)} == s.resident - Keys(gone);
    }
  }

  /** The keys that a lookup drops. */
  function Lost(expired: set<Id>, victim: Option<Id>): set<Id> {
    expired + if victim.Some? then {victim.value} else {}
  }

  /** gone lists them, in any order. */
  ghost predicate Lists(gone: seq<Id>, expired: set<Id>, victim: Option<Id>) {
    Keys(gone) == Lost(expired, victim)
  }

  /** The names after a lookup of id: a new entry stands for the cell that its step adds. */
  function Named(names: map<RecoveryEntry, Id>, known: bool, entry: RecoveryEntry, cell: Id):
    map<RecoveryEntry, Id>
  {
    if known then names else names[entry := cell]
  }

  /** Evicting gone and then taking a cell for id leads to a state that mirrors the cache, and hands out
      the cell that the returned entry stands for. */
  ghost predicate Simulated(cfg: Settings, s: Sys, gone: seq<Id>, id: Id, cell: Id, entry: RecoveryEntry,
                            entries: map<Id, RecoveryEntry>, names: map<RecoveryEntry, Id>)
    reads names.Keys
  {
    var mid := After(cfg, s, Evictions(gone));
    var e := TakeCell(id, cell, id in entries);
    Enabled(mid, e) && entry in names && names[entry] == Handed(mid, e) &&
    Mirrors(Next(cfg, mid, e), entries, names)
  }

  lemma EvictedMirrors(s: Sys, was: map<Id, RecoveryEntry>, names: map<RecoveryEntry, Id>, lost: set<Id>)
    requires Mirrors(s, was, names)
    ensures Mirrors(s.(resident := s.resident - lost), Drop(was, lost), names)
  {
  }

  /** A new entry and the new cell it stands for, kept or not. */
  lemma TakenMirrors(s: Sys, held: map<Id, RecoveryEntry>, names: map<RecoveryEntry, Id>, id: Id, cell: Id,
                     entry: RecoveryEntry, keep: bool)
    requires Mirrors(s, held, names) && id !in held && cell !in s.cells
    requires entry !in names && entry.cached == None
    ensures Mirrors(s.(cells := s.cells[cell := Cell(id, None, None)],
                       resident := if keep then s.resident[id := cell] else s.resident),
                    if keep then held[id := entry] else held, names[entry := cell])
  {
  }

  /** What a lookup that keeps its new entry leaves of the old ones. */
  lemma HeldAfter(was: map<Id, RecoveryEntry>, order: seq<Id>, expired: set<Id>, free: set<Id>,
                  rank: map<Id, nat>, id: Id, entry: RecoveryEntry, victim: Option<Id>,
                  entries: map<Id, RecoveryEntry>, order': seq<Id>)
    requires Answered(Drop(was, expired), Keep(order, expired), free, rank, id, entry, victim, entries, order')
    ensures id !in Drop(was, Lost(expired, victim)) <==> id !in Drop(was, expired)
    ensures var held := Drop(was, Lost(expired, victim));
            entries == if id in entries && id !in held then held[id := entry] else held
    ensures id in Drop(was, expired) ==> id in entries && entry == entries[id]
  {
    if victim.Some? { DropDrop(was, expired, {victim.value}); }
  }

  /** Which cache and which step of the protocol. */
  lemma TakeSimulated(cfg: Settings, mid: Sys, held: map<Id, RecoveryEntry>, names: map<RecoveryEntry, Id>,
                      id: Id, cell: Id, entry: RecoveryEntry, entries: map<Id, RecoveryEntry>)
    requires Mirrors(mid, held, names) && cell !in mid.cells
    requires entries == if id in entries && id !in held then held[id := entry] else held
    requires if id in held then entry == held[id] else entry !in names && entry.cached == None
    ensures var e := TakeCell(id, cell, id in entries);
            var names' := Named(names, id in held, entry, cell);
            Enabled(mid, e) && entry in names' && names'[entry] == Handed(mid, e) &&
            Mirrors(Next(cfg, mid, e), entries, names')
  {
    var e := TakeCell(id, cell, id in entries);
    if id in held {
      assert Next(cfg, mid, e) == mid;
    } else {
      TakenMirrors(mid, held, names, id, cell, entry, id in entries);
      assert Next(cfg, mid, e) ==
             mid.(cells := mid.cells[cell := Cell(id, None, None)],
                  resident := if id in entries then mid.resident[id := cell] else mid.resident);
    }
  }

  lemma LookupIsEvictionsAndTake(cfg: Settings, s: Sys, names: map<RecoveryEntry, Id>, gone: seq<Id>, cell: Id,
                                 was: map<Id, RecoveryEntry>, order: seq<Id>, expired: set<Id>, free: set<Id>,
                                 rank: map<Id, nat>, id: Id, entry: RecoveryEntry, victim: Option<Id>,
                                 entries: map<Id, RecoveryEntry>, order': seq<Id>)
    requires Mirrors(s, was, names) && cell !in s.cells && Lists(gone, expired, victim)
    requires Answered(Drop(was, expired), Keep(order, expired), free, rank, id, entry, victim, entries, order')
    requires id !in Drop(was, expired) ==> entry !in names && entry.cached == None
    ensures Simulated(cfg, s, gone, id, cell, entry, entries,
                      Named(names, id in Drop(was, expired), entry, cell))
  {
    Evicted(cfg, s, gone);
    EvictedMirrors(s, was, names, Lost(expired, victim));
    HeldAfter(was, order, expired, free, rank, id, entry, victim, entries, order');
    TakeSimulated(cfg, After(cfg, s, Evictions(gone)), Drop(was, Lost(expired, victim)), names, id, cell, entry,
                  entries);
  }

  /** A call of the cache, beside the protocol state it stands for. */
  method Lookup(cache: RecoveryCache, id: Id, now: Time, ghost cfg: Settings, ghost s: Sys,
                ghost names: map<RecoveryEntry, Id>, ghost cell: Id)
    returns (entry: RecoveryEntry, ghost victim: Option<Id>, ghost names': map<RecoveryEntry, Id>)
    requires cache.Valid() && Mirrors(s, cache.entries, names) && cell !in s.cells
    modifies cache
    ensures cache.Valid()
    ensures forall gone {:trigger Lists(gone, old(cache.Expired(now)), victim)} |
              Lists(gone, old(cache.Expired(now)), victim) ::
              Simulated(cfg, s, gone, id, cell, entry, cache.entries, names')
  {
    ghost var was, order, free, rank := cache.entries, cache.order, cache.Unlocked(), cache.lastUse;
    ghost var expired := cache.Expired(now);
    entry, victim := cache.Entry(id, now);
    names' := Named(names, id in Drop(was, expired), entry, cell);
    forall gone | Lists(gone, expired, victim)
      ensures Simulated(cfg, s, gone, id, cell, entry, cache.entries, names')
    {
      LookupIsEvictionsAndTake(cfg, s, names, gone, cell, was, order, expired, free - expired, rank, id, entry,
                               victim, cache.entries, cache.order);
    }
  }
}
