/** The sign-in limiter: every check reserves an attempt under a lease, a successful sign-in gives
    its own reservation back, and a failed one leaves it charged. */
module LoginLimiter {
  import opened Prelude

  datatype Key = Key(text: string)

  datatype Event = Event(at: real, id: nat)

  datatype Lease = Lease(key: Key, id: nat)

  datatype LoginError = TooManyAttempts | CapacityExceeded

  /** Reservations by key. */
  type Book = map<Key, seq<Event>>

  function At(book: Book, key: Key): seq<Event> {
    if key in book then book[key] else []
  }

  function Front(s: seq<Event>): seq<Event>
    requires s != []
  {
    s[..|s| - 1]
  }

  function Last(s: seq<Event>): Event
    requires s != []
  {
    s[|s| - 1]
  }

  // ---------------------------------------------------------------- the limiter that never forgets

  /** The reservations made after the cut. */
  function Live(s: seq<Event>, cut: real): seq<Event> {
    if s == [] then []
    else if Last(s).at > cut then Live(Front(s), cut) + [Last(s)]
    else Live(Front(s), cut)
  }

  function Without(s: seq<Event>, id: nat): seq<Event> {
    if s == [] then []
    else if Last(s).id == id then Without(Front(s), id)
    else Without(Front(s), id) + [Last(s)]
  }

  function LiveKeys(log: Book, cut: real): set<Key> {
    set k | k in log && Live(log[k], cut) != []
  }

  /** Every reservation not refunded so far, and the last lease number given out. */
  datatype Desk = Desk(log: Book, issued: nat)

  /** The error a check would answer with, if any. */
  function Refusal(log: Book, key: Key, cut: real, attempts: int, maxKeys: nat): Option<LoginError> {
    var live := Live(At(log, key), cut);
    if live != [] && |live| >= attempts then Some(TooManyAttempts)
    else if live == [] && |LiveKeys(log, cut)| >= maxKeys then Some(CapacityExceeded)
    else None
  }

  function Reserve(d: Desk, key: Key, now: real, cut: real, attempts: int, maxKeys: nat): Desk {
    if Refusal(d.log, key, cut, attempts, maxKeys).Some? then d
    else Desk(d.log[key := At(d.log, key) + [Event(now, d.issued + 1)]], d.issued + 1)
  }

  function Refund(d: Desk, lease: Lease): Desk {
    if lease.key in d.log
    then d.(log := d.log[lease.key := Without(d.log[lease.key], lease.id)])
    else d
  }

  // ---------------------------------------------------------------- order

  /** Oldest first, with increasing lease numbers, up to the given bounds. */
  ghost predicate Ordered(s: seq<Event>, id: nat, at: real) {
    s == [] || (0 < Last(s).id <= id && Last(s).at <= at && Ordered(Front(s), Last(s).id - 1, Last(s).at))
  }

  lemma OrderedLater(s: seq<Event>, id: nat, at: real, id': nat, at': real)
    requires Ordered(s, id, at) && id <= id' && at <= at'
    ensures Ordered(s, id', at')
  {
  }

  lemma PushOrdered(s: seq<Event>, id: nat, at: real, e: Event)
    requires Ordered(s, id, at) && e.id == id + 1 && e.at >= at
    ensures Ordered(s + [e], e.id, e.at)
  {
    assert Front(s + [e]) == s;
    OrderedLater(s, id, at, id, e.at);
  }

  lemma {:induction false} OrderedAt(s: seq<Event>, id: nat, at: real, i: nat, j: nat)
    requires Ordered(s, id, at) && i <= j < |s|
    ensures s[i].at <= s[j].at <= at && s[j].id <= id && (i < j ==> s[i].id < s[j].id)
  {
    if j < |s| - 1 {
      OrderedAt(Front(s), Last(s).id - 1, Last(s).at, i, j);
    } else if i < j {
      OrderedAt(Front(s), Last(s).id - 1, Last(s).at, i, i);
    }
  }

  lemma {:induction false} OrderedTail(s: seq<Event>, id: nat, at: real)
    requires s != [] && Ordered(s, id, at)
    ensures Ordered(s[1..], id, at)
  {
    if |s| > 1 {
      OrderedTail(Front(s), Last(s).id - 1, Last(s).at);
      assert Front(s[1..]) == Front(s)[1..];
    }
  }

  lemma {:induction false} LiveOrdered(s: seq<Event>, id: nat, at: real, cut: real)
    requires Ordered(s, id, at)
    ensures Ordered(Live(s, cut), id, at)
  {
    if s != [] {
      LiveOrdered(Front(s), Last(s).id - 1, Last(s).at, cut);
      var rest := Live(Front(s), cut);
      assert Front(rest + [Last(s)]) == rest;
    }
  }

  lemma {:induction false} WithoutOrdered(s: seq<Event>, id: nat, at: real, x: nat)
    requires Ordered(s, id, at)
    ensures Ordered(Without(s, x), id, at)
    ensures |Without(s, x)| <= |s|
  {
    if s != [] {
      WithoutOrdered(Front(s), Last(s).id - 1, Last(s).at, x);
      OrderedLater(Without(Front(s), x), Last(s).id - 1, Last(s).at, id, at);
      var rest := Without(Front(s), x);
      assert Front(rest + [Last(s)]) == rest;
    }
  }

  // ---------------------------------------------------------------- pruning and refunding

  /** Dropping leading reservations up to the cut, as the deque does, loses no live one. */
  lemma {:induction false} LiveTail(s: seq<Event>, id: nat, at: real, cut: real)
    requires s != [] && Ordered(s, id, at)
    ensures s[0].at <= cut ==> Live(s[1..], cut) == Live(s, cut)
    ensures s[0].at > cut ==> Live(s, cut) == s
  {
    if |s| > 1 {
      OrderedAt(s, id, at, 0, |s| - 1);
      LiveTail(Front(s), Last(s).id - 1, Last(s).at, cut);
      assert Front(s[1..]) == Front(s)[1..];
      assert s == Front(s) + [Last(s)];
    } else {
      assert Front(s) == [] && s[1..] == [] && s == [Last(s)];
    }
  }

  lemma {:induction false} LiveAgain(s: seq<Event>, cut: real, cut': real)
    requires cut <= cut'
    ensures Live(Live(s, cut), cut') == Live(s, cut')
  {
    if s != [] {
      LiveAgain(Front(s), cut, cut');
      var rest := Live(Front(s), cut);
      assert Front(rest + [Last(s)]) == rest;
    }
  }

  lemma {:induction false} LiveWithout(s: seq<Event>, cut: real, x: nat)
    ensures Live(Without(s, x), cut) == Without(Live(s, cut), x)
  {
    if s != [] {
      LiveWithout(Front(s), cut, x);
      var rest, live := Without(Front(s), x), Live(Front(s), cut);
      assert Front(rest + [Last(s)]) == rest;
      assert Front(live + [Last(s)]) == live;
    }
  }

  lemma LivePush(s: seq<Event>, cut: real, e: Event)
    requires e.at > cut
    ensures Live(s + [e], cut) == Live(s, cut) + [e]
  {
    assert Front(s + [e]) == s;
  }

  /** Lease numbers are unique, so taking the first match out takes out every match. */
  lemma {:induction false} WithoutAt(s: seq<Event>, id: nat, at: real, i: nat, x: nat)
    requires Ordered(s, id, at) && i < |s| && s[i].id == x
    ensures Without(s, x) == s[..i] + s[i + 1..]
  {
    if i == |s| - 1 {
      forall j | 0 <= j < i ensures Front(s)[j].id != x { OrderedAt(s, id, at, j, i); }
      WithoutAbsent(Front(s), x, Last(s).id - 1, Last(s).at);
    } else {
      WithoutAt(Front(s), Last(s).id - 1, Last(s).at, i, x);
      OrderedAt(s, id, at, i, |s| - 1);
      assert s[i + 1..] == Front(s)[i + 1..] + [Last(s)];
    }
  }

  lemma {:induction false} WithoutAbsent(s: seq<Event>, x: nat, id: nat, at: real)
    requires Ordered(s, id, at) && forall i | 0 <= i < |s| :: s[i].id != x
    ensures Without(s, x) == s
  {
    if s != [] {
      assert forall i | 0 <= i < |Front(s)| :: Front(s)[i] == s[i];
      WithoutAbsent(Front(s), x, Last(s).id - 1, Last(s).at);
    }
  }

  // ---------------------------------------------------------------- stored and remembered

  /** The deque holds every live reservation that has not been refunded. */
  ghost predicate Agrees(events: Book, log: Book, cut: real, k: Key) {
    Live(At(events, k), cut) == Live(At(log, k), cut)
  }

  ghost predicate Agree(events: Book, log: Book, cut: real) {
    forall k: Key {:trigger Agrees(events, log, cut, k)} :: Agrees(events, log, cut, k)
  }

  ghost predicate InOrder(book: Book, id: nat, at: real, k: Key) {
    Ordered(At(book, k), id, at)
  }

  ghost predicate AllInOrder(book: Book, id: nat, at: real) {
    forall k: Key {:trigger InOrder(book, id, at, k)} :: InOrder(book, id, at, k)
  }

  ghost predicate NoneEmpty(events: Book) {
    forall k | k in events :: events[k] != []
  }

  lemma AgreeLater(events: Book, log: Book, cut: real, cut': real)
    requires Agree(events, log, cut) && cut <= cut'
    ensures Agree(events, log, cut')
  {
    forall k: Key ensures Agrees(events, log, cut', k) {
      assert Agrees(events, log, cut, k);
      LiveAgain(At(events, k), cut, cut');
      LiveAgain(At(log, k), cut, cut');
    }
  }

  lemma InOrderLater(book: Book, id: nat, at: real, id': nat, at': real)
    requires AllInOrder(book, id, at) && id <= id' && at <= at'
    ensures AllInOrder(book, id', at')
  {
    forall k: Key ensures InOrder(book, id', at', k) {
      assert InOrder(book, id, at, k);
      OrderedLater(At(book, k), id, at, id', at');
    }
  }

  /** The same book with the deque of one key replaced; an empty deque is not kept. */
  ghost predicate Replaced(book: Book, book': Book, key: Key, s: seq<Event>) {
    At(book', key) == s && forall k: Key | k != key :: At(book', k) == At(book, k)
  }

  lemma AgreeReplaced(events: Book, events': Book, log: Book, log': Book, cut: real, key: Key,
                      s: seq<Event>, t: seq<Event>)
    requires Agree(events, log, cut)
    requires Replaced(events, events', key, s) && Replaced(log, log', key, t)
    requires Live(s, cut) == Live(t, cut)
    ensures Agree(events', log', cut)
  {
    forall k: Key ensures Agrees(events', log', cut, k) {
      assert Agrees(events, log, cut, k);
    }
  }

  lemma InOrderReplaced(book: Book, book': Book, id: nat, at: real, key: Key, s: seq<Event>)
    requires AllInOrder(book, id, at) && Replaced(book, book', key, s) && Ordered(s, id, at)
    ensures AllInOrder(book', id, at)
  {
    forall k: Key ensures InOrder(book', id, at, k) {
      assert InOrder(book, id, at, k);
    }
  }

  lemma LiveKeysAgree(events: Book, log: Book, cut: real)
    requires Agree(events, log, cut)
    ensures LiveKeys(events, cut) == LiveKeys(log, cut)
  {
    forall k ensures k in LiveKeys(events, cut) <==> k in LiveKeys(log, cut) {
      assert Agrees(events, log, cut, k);
    }
  }

  lemma Subset(a: set<Key>, b: set<Key>)
    requires a <= b
    ensures |a| <= |b|
  {
    assert b == a + (b - a);
  }

  class LoginRateLimiter {
    const attempts: int
    const windowSeconds: nat
    const maxKeys: nat
    var events: Book
    var nextEventId: nat
    ghost var desk: Desk      // what a limiter that never forgets would hold
    ghost var last: real      // the latest clock reading
    ghost var horizon: real   // the latest clock reading less the window

    ghost predicate Valid()
      reads this
    {
      windowSeconds > 0 && |events| <= maxKeys && NoneEmpty(events) && desk.issued == nextEventId &&
      Agree(events, desk.log, horizon) &&
      AllInOrder(events, nextEventId, last) && AllInOrder(desk.log, nextEventId, last)
    }

    constructor (attempts: int, windowSeconds: nat, maxKeys: nat, now: real)
      requires windowSeconds > 0
      ensures Valid() && desk == Desk(map[], 0) && last == now && horizon == now - windowSeconds as real
      ensures this.attempts == attempts && this.windowSeconds == windowSeconds && this.maxKeys == maxKeys
    {
      this.attempts, this.windowSeconds, this.maxKeys := attempts, windowSeconds, maxKeys;
      events, nextEventId := map[], 0;
      desk, last, horizon := Desk(map[], 0), now, now - windowSeconds as real;
    }

    static method Prune(events: seq<Event>, cut: real, ghost id: nat, ghost at: real) returns (left: seq<Event>)
      requires Ordered(events, id, at)
      ensures left == Live(events, cut) && Ordered(left, id, at)
    {
      left := events;
      while left != [] && left[0].at <= cut
        invariant Ordered(left, id, at) && Live(left, cut) == Live(events, cut)
        decreases |left|
      {
        LiveTail(left, id, at, cut);
        OrderedTail(left, id, at);
        left := left[1..];
      }
      if left != [] { LiveTail(left, id, at, cut); }
    }

    static method PruneMapping(entries: Book, cut: real, ghost id: nat, ghost at: real) returns (left: Book)
      requires NoneEmpty(entries) && AllInOrder(entries, id, at)
      ensures NoneEmpty(left) && left.Keys == LiveKeys(entries, cut)
      ensures forall k | k in left :: left[k] == Live(entries[k], cut)
    {
      left := entries;
      var todo := entries.Keys;
      while todo != {}
        invariant NoneEmpty(left) && todo <= left.Keys <= entries.Keys
        invariant forall k | k in todo :: left[k] == entries[k]
        invariant forall k | k in entries && k !in todo ::
          if Live(entries[k], cut) == [] then k !in left
          else k in left && left[k] == Live(entries[k], cut)
        decreases |todo|
      {
        var key :| key in todo;
        assert InOrder(entries, id, at, key);
        var events := Prune(left[key], cut, id, at);
        if events == [] { left := left - {key}; } else { left := left[key := events]; }
        todo := todo - {key};
      }
    }

    /** Puts a deque back, or forgets its key when nothing is left; log' is the new log, in which
        the key has the reservations t. */
    method Store(key: Key, s: seq<Event>, ghost log': Book, ghost t: seq<Event>)
      requires Valid() && (key in events || (s != [] && |events| < maxKeys))
      requires Live(s, horizon) == Live(t, horizon) && Replaced(desk.log, log', key, t)
      requires Ordered(s, nextEventId, last) && Ordered(t, nextEventId, last)
      modifies this`events, this`desk
      ensures Valid() && Replaced(old(events), events, key, s)
      ensures desk == old(desk).(log := log')
    {
      ghost var events0, log0 := events, desk.log;
      if s == [] {
        assert (events - {key}).Keys == events.Keys - {key};
        events := events - {key};
      } else {
        assert events[key := s].Keys == events.Keys + {key};
        if key in events0 { assert events0.Keys + {key} == events0.Keys; }
        events := events[key := s];
      }
      desk := desk.(log := log');
      AgreeReplaced(events0, events, log0, log', horizon, key, s, t);
      InOrderReplaced(events0, events, nextEventId, last, key, s);
      InOrderReplaced(log0, log', nextEventId, last, key, t);
    }

    method PruneAll(cut: real)
      requires Valid() && horizon == cut
      modifies this`events
      ensures Valid() && events.Keys == LiveKeys(desk.log, cut) == LiveKeys(old(events), cut)
    {
      LiveKeysAgree(events, desk.log, cut);
      ghost var before := events;
      events := PruneMapping(events, cut, nextEventId, last);
      Subset(events.Keys, before.Keys);
      forall k: Key ensures Agrees(events, desk.log, cut, k) && InOrder(events, nextEventId, last, k) {
        assert Agrees(before, desk.log, cut, k) && InOrder(before, nextEventId, last, k);
        LiveAgain(At(before, k), cut, cut);
        LiveOrdered(At(before, k), nextEventId, last, cut);
      }
    }

    /** Prunes one key and says how many reservations it has left. */
    method PruneKey(key: Key, cut: real) returns (live: seq<Event>)
      requires Valid() && horizon == cut
      modifies this`events, this`desk
      ensures Valid() && desk == old(desk)
      ensures live == At(events, key) == Live(At(desk.log, key), cut)
      ensures key in events <==> live != []
    {
      assert Agrees(events, desk.log, cut, key);
      if key !in events { return []; }
      assert InOrder(events, nextEventId, last, key) && InOrder(desk.log, nextEventId, last, key);
      live := Prune(events[key], cut, nextEventId, last);
      LiveAgain(events[key], cut, cut);
      Store(key, live, desk.log, At(desk.log, key));
    }

    /** There is room for one more key, if need be after pruning all of them. */
    method HasRoom(cut: real) returns (room: bool)
      requires Valid() && horizon == cut
      modifies this`events
      ensures Valid() && room == (|LiveKeys(desk.log, cut)| < maxKeys)
      ensures room ==> |events| < maxKeys
      ensures forall k: Key | k !in old(events) :: k !in events
    {
      LiveKeysAgree(events, desk.log, cut);
      Subset(LiveKeys(events, cut), events.Keys);
      if |events| >= maxKeys { PruneAll(cut); }
      return |events| < maxKeys;
    }

    /** The clock has been read: reservations up to the new cut no longer count. */
    ghost method Advance(now: real, cut: real)
      requires Valid() && last <= now && horizon <= cut
      modifies this`last, this`horizon
      ensures Valid() && last == now && horizon == cut
    {
      AgreeLater(events, desk.log, horizon, cut);
      InOrderLater(events, nextEventId, last, nextEventId, now);
      InOrderLater(desk.log, nextEventId, last, nextEventId, now);
      last, horizon := now, cut;
    }

    method TakeNumber() returns (id: nat)
      requires Valid()
      modifies this`nextEventId, this`desk
      ensures Valid() && id == nextEventId == old(nextEventId) + 1 == desk.issued
      ensures desk.log == old(desk).log
    {
      InOrderLater(events, nextEventId, last, nextEventId + 1, last);
      InOrderLater(desk.log, nextEventId, last, nextEventId + 1, last);
      nextEventId := nextEventId + 1;
      desk := desk.(issued := nextEventId);
      return nextEventId;
    }

    method Append(key: Key, now: real) returns (lease: Lease)
      requires Valid() && last == now && horizon < now
      requires key in events || |events| < maxKeys
      modifies this`events, this`nextEventId, this`desk
      ensures Valid() && lease == Lease(key, old(desk).issued + 1)
      ensures desk == Desk(old(desk).log[key := At(old(desk).log, key) + [Event(now, old(desk).issued + 1)]],
                           old(desk).issued + 1)
      ensures At(events, key) == At(old(events), key) + [Event(now, old(desk).issued + 1)]
    {
      ghost var s0, t0 := At(events, key), At(desk.log, key);
      assert Agrees(events, desk.log, horizon, key);
      assert InOrder(events, nextEventId, last, key) && InOrder(desk.log, nextEventId, last, key);
      ghost var n := nextEventId;
      var id := TakeNumber();
      var event := Event(now, id);
      LivePush(s0, horizon, event);
      LivePush(t0, horizon, event);
      PushOrdered(s0, n, now, event);
      PushOrdered(t0, n, now, event);
      Store(key, (if key in events then events[key] else []) + [event], desk.log[key := t0 + [event]], t0 + [event]);
      return Lease(key, id);
    }

    /** Reserves an attempt, or says why not. now is the clock reading of this check, which is not
        before an earlier one. */
    method Check(key: Key, now: real) returns (result: Result<Lease, LoginError>)
      requires Valid() && last <= now && horizon <= now - windowSeconds as real
      modifies this
      ensures Valid() && last == now && horizon == now - windowSeconds as real
      ensures desk == Reserve(old(desk), key, now, horizon, attempts, maxKeys)
      ensures var refusal := Refusal(old(desk).log, key, horizon, attempts, maxKeys);
              result == if refusal.Some? then Err(refusal.value) else Ok(Lease(key, desk.issued))
      ensures At(events, key) == Live(At(desk.log, key), horizon)
    {
      var cut := now - windowSeconds as real;
      Advance(now, cut);
      var live := PruneKey(key, cut);
      if live != [] && |live| >= attempts { return Err(TooManyAttempts); }
      if live == [] {
        var room := HasRoom(cut);
        if !room { return Err(CapacityExceeded); }
      }
      LivePush(At(desk.log, key), cut, Event(now, desk.issued + 1));
      var lease := Append(key, now);
      return Ok(lease);
    }

    /** The attempt stays charged. */
    method Failure(lease: Lease)
      ensures unchanged(this)
    {
    }

    /** Gives one reservation back: the one made under this lease, and no other. */
    method Success(lease: Lease)
      requires Valid()
      modifies this`events, this`desk
      ensures Valid() && desk == Refund(old(desk), lease)
    {
      ghost var t := Without(At(desk.log, lease.key), lease.id);
      assert Agrees(events, desk.log, horizon, lease.key);
      assert InOrder(events, nextEventId, last, lease.key) && InOrder(desk.log, nextEventId, last, lease.key);
      LiveWithout(At(desk.log, lease.key), horizon, lease.id);
      LiveWithout(At(events, lease.key), horizon, lease.id);
      WithoutOrdered(At(desk.log, lease.key), nextEventId, last, lease.id);
      WithoutOrdered(At(events, lease.key), nextEventId, last, lease.id);
      if lease.key !in events {
        AgreeReplaced(events, events, desk.log, Refund(desk, lease).log, horizon, lease.key, [], t);
        InOrderReplaced(desk.log, Refund(desk, lease).log, nextEventId, last, lease.key, t);
        desk := Refund(desk, lease);
        return;
      }
      var left := RemoveFirst(events[lease.key], lease.id, nextEventId, last);
      Store(lease.key, left, Refund(desk, lease).log, t);
    }

    static method RemoveFirst(events: seq<Event>, x: nat, ghost id: nat, ghost at: real) returns (left: seq<Event>)
      requires Ordered(events, id, at)
      ensures left == Without(events, x)
    {
      var i := 0;
      while i < |events|
        invariant 0 <= i <= |events| && forall j | 0 <= j < i :: events[j].id != x
      {
        if events[i].id == x {
          WithoutAt(events, id, at, i, x);
          return events[..i] + events[i + 1..];
        }
        i := i + 1;
      }
      WithoutAbsent(events, x, id, at);
      return events;
    }
  }
}
