/** The bounded cache of recovery entries: an ordered dictionary, least recently used first. */
module RecoveryCache {
  import opened Prelude
  import opened OAuthTables
  import opened OAuthTransactions
  import opened OAuthServer

  const MAX_ENTRIES: nat := 1024

  // ---------------------------------------------------------------- key orders

  function Front(s: seq<Id>): seq<Id>
    requires s != []
  {
    s[..|s| - 1]
  }

  function Last(s: seq<Id>): Id
    requires s != []
  {
    s[|s| - 1]
  }

  function Keys(s: seq<Id>): set<Id> {
    if s == [] then {} else Keys(Front(s)) + {Last(s)}
  }

  lemma {:induction false} InKeys(s: seq<Id>, x: Id)
    ensures x in s <==> x in Keys(s)
  {
    if s != [] {
      InKeys(Front(s), x);
      assert s == Front(s) + [Last(s)];
    }
  }

  /** The keys that are not gone, in their order. */
  function Keep(s: seq<Id>, gone: set<Id>): seq<Id> {
    if s == [] then []
    else if Last(s) in gone then Keep(Front(s), gone)
    else Keep(Front(s), gone) + [Last(s)]
  }

  lemma {:induction false} KeepKeys(s: seq<Id>, gone: set<Id>)
    ensures Keys(Keep(s, gone)) == Keys(s) - gone
  {
    if s != [] {
      KeepKeys(Front(s), gone);
      var kept := Keep(Front(s), gone);
      assert Front(kept + [Last(s)]) == kept;
    }
  }

  lemma {:induction false} KeepKeep(s: seq<Id>, a: set<Id>, b: set<Id>)
    ensures Keep(Keep(s, a), b) == Keep(s, a + b)
  {
    if s != [] {
      KeepKeep(Front(s), a, b);
      var kept := Keep(Front(s), a);
      assert Front(kept + [Last(s)]) == kept;
    }
  }

  lemma {:induction false} KeepNothing(s: seq<Id>, gone: set<Id>)
    requires Keys(s) !! gone
    ensures Keep(s, gone) == s
  {
    if s != [] {
      assert Front(s) + [Last(s)] == s;
      KeepNothing(Front(s), gone);
    }
  }

  /** The ranks of the keys increase, up to a bound; so no key appears twice. */
  ghost predicate Ordered(s: seq<Id>, rank: map<Id, nat>, bound: nat) {
    s == [] ||
    (Last(s) in rank && rank[Last(s)] < bound && Ordered(Front(s), rank, rank[Last(s)]))
  }

  lemma {:induction false} KeepOrdered(s: seq<Id>, gone: set<Id>, rank: map<Id, nat>, bound: nat)
    requires Ordered(s, rank, bound)
    ensures Ordered(Keep(s, gone), rank, bound)
  {
    if s != [] {
      KeepOrdered(Front(s), gone, rank, rank[Last(s)]);
      var kept := Keep(Front(s), gone);
      assert Front(kept + [Last(s)]) == kept;
    }
  }

  lemma {:induction false} OrderedAt(s: seq<Id>, rank: map<Id, nat>, bound: nat, i: nat, j: nat)
    requires Ordered(s, rank, bound) && i <= j < |s|
    ensures s[i] in rank && s[j] in rank && rank[s[j]] < bound
    ensures i < j ==> rank[s[i]] < rank[s[j]]
  {
    if j < |s| - 1 {
      OrderedAt(Front(s), rank, rank[Last(s)], i, j);
    } else if i < j {
      OrderedAt(Front(s), rank, rank[Last(s)], i, i);
    }
  }

  lemma FreshAt(s: seq<Id>, rank: map<Id, nat>, bound: nat, i: nat)
    requires Ordered(s, rank, bound) && i < |s|
    ensures s[i] !in Keys(s[..i])
  {
    forall j | 0 <= j < i ensures s[..i][j] != s[i] { OrderedAt(s, rank, bound, j, i); }
    InKeys(s[..i], s[i]);
  }

  lemma {:induction false} Reranked(s: seq<Id>, rank: map<Id, nat>, bound: nat, x: Id, r: nat)
    requires Ordered(s, rank, bound) && x !in Keys(s)
    ensures Ordered(s, rank[x := r], bound)
  {
    if s != [] {
      Reranked(Front(s), rank, rank[Last(s)], x, r);
    }
  }

  /** Moving a key to the end under a rank above all others. */
  lemma Touched(s: seq<Id>, rank: map<Id, nat>, bound: nat, x: Id)
    requires Ordered(s, rank, bound)
    ensures Ordered(Keep(s, {x}) + [x], rank[x := bound], bound + 1)
    ensures Keys(Keep(s, {x}) + [x]) == Keys(s) + {x}
  {
    var rest := Keep(s, {x});
    KeepKeys(s, {x});
    KeepOrdered(s, {x}, rank, bound);
    Reranked(rest, rank, bound, x, bound);
    assert Front(rest + [x]) == rest;
  }

  // ---------------------------------------------------------------- the cache

  function Drop<V>(m: map<Id, V>, gone: set<Id>): map<Id, V> {
    m - gone
  }

  lemma DropDrop<V>(m: map<Id, V>, a: set<Id>, b: set<Id>)
    ensures Drop(Drop(m, a), b) == Drop(m, a + b)
  {
  }

  /** The keys among the first i items that the purge has dropped. */
  ghost function Gone(expired: set<Id>, items: seq<Id>, i: nat): set<Id>
    requires i <= |items|
  {
    expired * Keys(items[..i])
  }

  /** The purge has gone through the first i items. */
  ghost predicate Purged<V>(items: seq<Id>, was: map<Id, V>, expired: set<Id>, i: nat,
                            order: seq<Id>, entries: map<Id, V>)
    requires i <= |items|
  {
    order == Keep(items, Gone(expired, items, i)) && entries == Drop(was, Gone(expired, items, i))
  }

  lemma PurgedNone<V>(items: seq<Id>, was: map<Id, V>, expired: set<Id>)
    ensures Purged(items, was, expired, 0, items, was)
  {
    KeepNothing(items, {});
    assert Gone(expired, items, 0) == {};
    assert Drop(was, {}) == was;
  }

  lemma PurgedAll<V>(items: seq<Id>, was: map<Id, V>, expired: set<Id>, order: seq<Id>, entries: map<Id, V>)
    requires Purged(items, was, expired, |items|, order, entries) && expired <= Keys(items)
    ensures order == Keep(items, expired) && entries == Drop(was, expired)
  {
    assert items[..|items|] == items;
    assert Gone(expired, items, |items|) == expired;
  }

  lemma PurgeNext<V>(items: seq<Id>, was: map<Id, V>, expired: set<Id>, i: nat, order: seq<Id>,
                     entries: map<Id, V>, rank: map<Id, nat>, bound: nat)
    requires Ordered(items, rank, bound) && i < |items| && Keys(items) == was.Keys
    requires Purged(items, was, expired, i, order, entries)
    ensures items[i] in entries && entries[items[i]] == was[items[i]]
    ensures items[i] !in expired ==> Purged(items, was, expired, i + 1, order, entries)
    ensures items[i] in expired ==>
              Purged(items, was, expired, i + 1, Keep(order, {items[i]}), Drop(entries, {items[i]}))
  {
    InKeys(items, items[i]);
    FreshAt(items, rank, bound, i);
    assert Front(items[..i + 1]) == items[..i];
    var gone, gone' := Gone(expired, items, i), Gone(expired, items, i + 1);
    if items[i] in expired {
      assert gone' == gone + {items[i]};
      KeepKeep(items, gone, {items[i]});
      DropDrop(was, gone, {items[i]});
    } else {
      assert gone' == gone;
    }
  }

  /** v is the free key that was asked for longest ago. */
  ghost predicate LeastRecent(free: set<Id>, rank: map<Id, nat>, v: Id) {
    v in free && v in rank && forall x | x in free :: x in rank && rank[v] <= rank[x]
  }

  /** The answer of a lookup in a cache holding entries in the given order, and the cache it
      leaves: a resident entry moves to the end; a new one is added there, in a full cache in place
      of the least recently used free entry, or not at all if no entry is free. */
  ghost predicate Answered(entries: map<Id, RecoveryEntry>, order: seq<Id>, free: set<Id>, rank: map<Id, nat>,
                           id: Id, entry: RecoveryEntry, victim: Option<Id>,
                           entries': map<Id, RecoveryEntry>, order': seq<Id>)
  {
    if id in entries
    then victim == None && entry == entries[id] && entries' == entries && order' == Keep(order, {id}) + [id]
    else if |entries| < MAX_ENTRIES
    then victim == None && entries' == entries[id := entry] && order' == order + [id]
    else if victim.None?
    then free == {} && entries' == entries && order' == order
    else LeastRecent(free, rank, victim.value) && entries' == Drop(entries, {victim.value})[id := entry] &&
         order' == Keep(order, {victim.value}) + [id]
  }

  /** Apart from the expired entries a lookup loses at most its victim, which nobody was using. */
  lemma OnlyTheVictimIsLost(was: map<Id, RecoveryEntry>, order: seq<Id>, expired: set<Id>, free: set<Id>,
                            rank: map<Id, nat>, id: Id, entry: RecoveryEntry, victim: Option<Id>,
                            entries: map<Id, RecoveryEntry>, order': seq<Id>, x: Id)
    requires Answered(Drop(was, expired), Keep(order, expired), free - expired, rank, id, entry, victim,
                      entries, order')
    requires x in was && x !in expired
    ensures (x in entries && entries[x] == was[x]) || (victim == Some(x) && x in free)
  {
  }

  class RecoveryCache {
    var order: seq<Id>
    var entries: map<Id, RecoveryEntry>
    ghost var lastUse: map<Id, nat>  // when each key was last asked for
    ghost var tick: nat

    ghost predicate Valid()
      reads this
    {
      Keys(order) == entries.Keys && |entries| <= MAX_ENTRIES && Ordered(order, lastUse, tick)
    }

    /** Nobody is using the entry. */
    ghost function Unlocked(): set<Id>
      reads this, entries.Values
    {
      set x | x in entries && !entries[x].locked
    }

    /** A duplicate at time at would be answered from the entry. */
    ghost function Answering(at: Time): set<Id>
      reads this, entries.Values
    {
      set x | x in entries && entries[x].cached.Some? && entries[x].cached.value.expiresAt >= at
    }

    /** The purge may drop the entry. */
    ghost function Expired(now: Time): set<Id>
      reads this, entries.Values
    {
      set x | x in entries && entries[x].cached.Some? && entries[x].cached.value.expiresAt < now &&
              !entries[x].locked
    }

    /** What the purge drops could not answer a duplicate then or at any later time, and it is not
        in use. */
    lemma ExpiredIsUseless(now: Time, later: Time)
      requires now <= later
      ensures Expired(now) !! Answering(later) && Expired(now) <= Unlocked()
    {
    }

    /** What it keeps of the entries nobody uses is empty or could still answer. */
    lemma KeptIsUseful(now: Time, x: Id)
      requires x in entries && x !in Expired(now) && !entries[x].locked && entries[x].cached.Some?
      ensures entries[x].cached.value.expiresAt >= now && x in Answering(now)
    {
    }

    constructor ()
      ensures Valid() && order == []
    {
      order, entries, lastUse, tick := [], map[], map[], 0;
    }

    method Pop(x: Id)
      requires Valid() && x in entries
      modifies this`order, this`entries
      ensures Valid() && order == Keep(old(order), {x}) && entries == Drop(old(entries), {x})
      ensures |entries| == |old(entries)| - 1
    {
      KeepKeys(order, {x});
      KeepOrdered(order, {x}, lastUse, tick);
      assert (entries - {x}).Keys == entries.Keys - {x};
      order := Keep(order, {x});
      entries := entries - {x};
    }

    /** Drops every unlocked entry whose answer has expired. */
    method Purge(now: Time)
      requires Valid()
      modifies this`order, this`entries
      ensures Valid()
      ensures order == Keep(old(order), old(Expired(now)))
      ensures entries == Drop(old(entries), old(Expired(now)))
    {
      var items := order;
      ghost var was, expired := entries, Expired(now);
      var i := 0;
      PurgedNone(items, was, expired);
      while i < |items|
        invariant 0 <= i <= |items| && Valid()
        invariant Purged(items, was, expired, i, order, entries)
      {
        var x := items[i];
        PurgeNext(items, was, expired, i, order, entries, lastUse, tick);
        var entry := entries[x];
        i := i + 1;
        if entry.cached.Some? && entry.cached.value.expiresAt < now && !entry.locked {
          Pop(x);
        }
        assert Purged(items, was, expired, i, order, entries);
      }
      PurgedAll(items, was, expired, order, entries);
    }

    /** Drops the first unlocked entry, if there is one. */
    method EvictOldest() returns (victim: Option<Id>)
      requires Valid()
      modifies this`order, this`entries
      ensures Valid()
      ensures victim.None? ==> order == old(order) && entries == old(entries) && old(Unlocked()) == {}
      ensures victim.Some? ==>
                LeastRecent(old(Unlocked()), lastUse, victim.value) &&
                order == Keep(old(order), {victim.value}) &&
                entries == Drop(old(entries), {victim.value}) && |entries| == |old(entries)| - 1
    {
      var items := order;
      var i := 0;
      while i < |items|
        invariant 0 <= i <= |items| && Valid()
        invariant order == items == old(order) && entries == old(entries)
        invariant forall j | 0 <= j < i :: items[j] in entries && entries[items[j]].locked
      {
        var x := items[i];
        InKeys(items, x);
        if !entries[x].locked {
          forall y | y in Unlocked()
            ensures x in lastUse && y in lastUse && lastUse[x] <= lastUse[y]
          {
            InKeys(items, y);
            var j :| 0 <= j < |items| && items[j] == y;
            OrderedAt(items, lastUse, tick, i, j);
          }
          Pop(x);
          return Some(x);
        }
        i := i + 1;
      }
      forall x | x in entries ensures entries[x].locked { InKeys(items, x); }
      return None;
    }

    /** Makes id the most recently used key, whether or not it was present. */
    method Touch(id: Id, entry: RecoveryEntry)
      requires Valid() && (id in entries || |entries| < MAX_ENTRIES)
      modifies this
      ensures Valid()
      ensures order == Keep(old(order), {id}) + [id] && entries == old(entries)[id := entry]
      ensures lastUse == old(lastUse)[id := old(tick)] && tick == old(tick) + 1
    {
      Touched(order, lastUse, tick, id);
      var rest := Keep(order, {id});
      entries := entries[id := entry];
      lastUse, tick := lastUse[id := tick], tick + 1;
      order := rest + [id];
    }

    /** A new entry is kept if there is room, if need be by evicting the least recently used
        unlocked entry; when every resident entry is locked it is handed out without being kept. */
    method Admit(id: Id, entry: RecoveryEntry) returns (victim: Option<Id>)
      requires Valid() && id !in entries
      modifies this
      ensures Valid()
      ensures |old(entries)| < MAX_ENTRIES ==>
                victim == None && entries == old(entries)[id := entry] && order == old(order) + [id]
      ensures |old(entries)| >= MAX_ENTRIES && victim.None? ==>
                old(Unlocked()) == {} && entries == old(entries) && order == old(order)
      ensures |old(entries)| >= MAX_ENTRIES && victim.Some? ==>
                LeastRecent(old(Unlocked()), old(lastUse), victim.value) &&
                entries == Drop(old(entries), {victim.value})[id := entry] &&
                order == Keep(old(order), {victim.value}) + [id]
    {
      victim := None;
      if |entries| >= MAX_ENTRIES { victim := EvictOldest(); }
      if |entries| < MAX_ENTRIES {
        KeepNothing(order, {id});
        Touch(id, entry);
      }
    }

    method Lookup(id: Id) returns (entry: RecoveryEntry, victim: Option<Id>)
      requires Valid()
      modifies this
      ensures Valid()
      ensures Answered(old(entries), old(order), old(Unlocked()), old(lastUse), id, entry, victim, entries, order)
      ensures id !in old(entries) ==> fresh(entry) && entry.cached == None && !entry.locked
    {
      if id in entries {
        entry, victim := entries[id], None;
        Touch(id, entry);
      } else {
        entry := new RecoveryEntry();
        victim := Admit(id, entry);
      }
    }

    /** The entry for a refresh token: the resident one, or a new unlocked empty one. The cache
        loses the expired entries and at most one more, the victim. */
    method Entry(id: Id, now: Time) returns (entry: RecoveryEntry, victim: Option<Id>)
      requires Valid()
      modifies this
      ensures Valid()
      ensures Answered(Drop(old(entries), old(Expired(now))), Keep(old(order), old(Expired(now))),
                       old(Unlocked()) - old(Expired(now)), old(lastUse), id, entry, victim, entries, order)
      ensures id !in old(entries) || id in old(Expired(now)) ==>
                fresh(entry) && entry.cached == None && !entry.locked
    {
      Purge(now);
      assert Unlocked() == old(Unlocked()) - old(Expired(now));
      entry, victim := Lookup(id);
    }
  }
}
