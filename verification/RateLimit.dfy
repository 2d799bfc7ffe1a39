/** The multi-scope sliding-window limiter. It keeps one deque of admission times per key, prunes
    lazily and forgets idle keys; it is proved to decide exactly as a limiter that never forgets. */
module RateLimit {
  import opened Prelude

  datatype Key = Key(text: string)

  /** One requested charge: at most limit admissions of the key per window. */
  datatype Limit = Limit(scope: string, key: Key, limit: int)

  datatype Request = Request(scope: string, identifier: string, limit: int)

  function ScopeKey(scope: string, identifier: string): Key {
    Key(scope + ":" + identifier)
  }

  /** Scope names without a colon keep the scopes' keys apart. */
  lemma ScopeKeyInjective(s: string, i: string, s': string, i': string)
    requires ':' !in s && ':' !in s' && ScopeKey(s, i) == ScopeKey(s', i')
    ensures s == s' && i == i'
  {
    var k := ScopeKey(s, i).text;
    assert |s| == |s'| by {
      assert k[|s|] == ':' && k[|s'|] == ':';
      assert forall n | 0 <= n < |s| :: k[n] == s[n] != ':';
      assert forall n | 0 <= n < |s'| :: k[n] == s'[n] != ':';
    }
    assert s == k[..|s|] && s' == k[..|s'|];
    assert i == k[|s| + 1..] && i' == k[|s'| + 1..];
  }

  function Keyed(requests: seq<Request>): seq<Limit> {
    seq(|requests|, i requires 0 <= i < |requests| =>
      Limit(requests[i].scope, ScopeKey(requests[i].scope, requests[i].identifier), requests[i].limit))
  }

  datatype Decision = Allowed | Denied(scope: string, retryAfter: int)

  /** Admission times by key. */
  type Book = map<Key, seq<real>>

  function At(book: Book, key: Key): seq<real> {
    if key in book then book[key] else []
  }

  // ---------------------------------------------------------------- the limiter that never forgets

  /** The times left after dropping the leading ones up to the cut. */
  function After(s: seq<real>, cut: real): seq<real> {
    if s != [] && s[0] <= cut then After(s[1..], cut) else s
  }

  /** Admissions up to here no longer count. */
  function Cut(now: real, window: nat): real {
    now - window as real
  }

  /** A key with no live admission is never full, whatever its limit. */
  predicate Full(live: seq<real>, limit: int) {
    live != [] && |live| >= limit
  }

  /** Seconds until the oldest live admission leaves the window, rounded as the header needs. */
  function RetryAfter(oldest: real, now: real, window: nat): int {
    var delay := (oldest + window as real - now).Floor + 1;
    if delay >= 1 then delay else 1
  }

  /** The first requested charge, from position i, whose key is full. */
  function FirstFull(log: Book, limits: seq<Limit>, i: nat, cut: real): Option<nat>
    requires i <= |limits|
    decreases |limits| - i
  {
    if i == |limits| then None
    else if Full(After(At(log, limits[i].key), cut), limits[i].limit) then Some(i)
    else FirstFull(log, limits, i + 1, cut)
  }

  lemma {:induction false} FirstFullFound(log: Book, limits: seq<Limit>, i: nat, cut: real)
    requires i <= |limits|
    ensures var found := FirstFull(log, limits, i, cut);
            match found
            case Some(f) =>
              i <= f < |limits| && Full(After(At(log, limits[f].key), cut), limits[f].limit)
            case None =>
              forall j | i <= j < |limits| :: !Full(After(At(log, limits[j].key), cut), limits[j].limit)
    decreases |limits| - i
  {
    if i < |limits| { FirstFullFound(log, limits, i + 1, cut); }
  }

  function KeysOf(limits: seq<Limit>): set<Key> {
    set l | l in limits :: l.key
  }

  function LiveKeys(log: Book, cut: real): set<Key> {
    set k | k in log && After(log[k], cut) != []
  }

  /** The number of keys in use once the requested ones are charged. */
  function Needed(log: Book, limits: seq<Limit>, cut: real): nat {
    |LiveKeys(log, cut) + KeysOf(limits)|
  }

  /** The decision when admissions up to the cut no longer count. */
  function DecideAt(log: Book, limits: seq<Limit>, cut: real, now: real, window: nat, maxKeys: nat): Decision {
    match FirstFull(log, limits, 0, cut)
    case Some(i) =>
      FirstFullFound(log, limits, 0, cut);
      Denied(limits[i].scope, RetryAfter(After(At(log, limits[i].key), cut)[0], now, window))
    case None =>
      if Needed(log, limits, cut) > maxKeys then Denied("capacity", window) else Allowed
  }

  function Decide(log: Book, limits: seq<Limit>, now: real, window: nat, maxKeys: nat): Decision {
    DecideAt(log, limits, Cut(now, window), now, window, maxKeys)
  }

  /** Every requested key is charged once per request. */
  function Charged(book: Book, limits: seq<Limit>, now: real): Book
    decreases limits
  {
    if limits == [] then book
    else Charged(book[limits[0].key := At(book, limits[0].key) + [now]], limits[1..], now)
  }

  function LoggedAt(log: Book, limits: seq<Limit>, cut: real, now: real, window: nat, maxKeys: nat): Book {
    if DecideAt(log, limits, cut, now, window, maxKeys) == Allowed then Charged(log, limits, now) else log
  }

  /** Nothing is charged on denial. */
  function Logged(log: Book, limits: seq<Limit>, now: real, window: nat, maxKeys: nat): Book {
    LoggedAt(log, limits, Cut(now, window), now, window, maxKeys)
  }

  // ---------------------------------------------------------------- pruning

  lemma {:induction false} AfterAgain(s: seq<real>, c: real, c': real)
    requires c <= c'
    ensures After(After(s, c), c') == After(s, c')
  {
    if s != [] && s[0] <= c { AfterAgain(s[1..], c, c'); }
  }

  lemma {:induction false} AfterPush(s: seq<real>, cut: real, now: real)
    requires cut < now
    ensures After(s + [now], cut) == After(s, cut) + [now]
  {
    if s != [] && s[0] <= cut {
      AfterPush(s[1..], cut, now);
      assert (s + [now])[1..] == s[1..] + [now];
    }
  }

  /** The deque has every admission that is still live. */
  ghost predicate Agrees(events: Book, log: Book, cut: real, k: Key) {
    After(At(events, k), cut) == After(At(log, k), cut)
  }

  ghost predicate Agree(events: Book, log: Book, cut: real) {
    forall k: Key {:trigger Agrees(events, log, cut, k)} :: Agrees(events, log, cut, k)
  }

  ghost predicate NoneEmpty(events: Book) {
    forall k | k in events :: events[k] != []
  }

  lemma AgreeLater(events: Book, log: Book, cut: real, cut': real)
    requires Agree(events, log, cut) && cut <= cut'
    ensures Agree(events, log, cut')
  {
    forall k: Key ensures Agrees(events, log, cut', k) {
      assert Agrees(events, log, cut, k);
      AfterAgain(At(events, k), cut, cut');
      AfterAgain(At(log, k), cut, cut');
    }
  }

  /** Pruning one key, or forgetting it when nothing is left, keeps the agreement. */
  lemma AgreePruned(events: Book, events': Book, log: Book, cut: real, key: Key)
    requires Agree(events, log, cut)
    requires forall k: Key :: At(events', k) == if k == key then After(At(events, k), cut) else At(events, k)
    ensures Agree(events', log, cut)
  {
    forall k: Key ensures Agrees(events', log, cut, k) {
      assert Agrees(events, log, cut, k);
      AfterAgain(At(events, k), cut, cut);
    }
  }

  lemma {:induction false} AgreeCharged(events: Book, log: Book, limits: seq<Limit>, cut: real, now: real)
    requires Agree(events, log, cut) && cut < now
    ensures Agree(Charged(events, limits, now), Charged(log, limits, now), cut)
    decreases limits
  {
    if limits != [] {
      var key := limits[0].key;
      var events' := events[key := At(events, key) + [now]];
      var log' := log[key := At(log, key) + [now]];
      forall k: Key ensures Agrees(events', log', cut, k) {
        assert Agrees(events, log, cut, k);
        AfterPush(At(events, k), cut, now);
        AfterPush(At(log, k), cut, now);
      }
      AgreeCharged(events', log', limits[1..], cut, now);
    }
  }

  lemma {:induction false} ChargedKeys(events: Book, limits: seq<Limit>, now: real)
    requires NoneEmpty(events)
    ensures NoneEmpty(Charged(events, limits, now))
    ensures Charged(events, limits, now).Keys == events.Keys + KeysOf(limits)
    decreases limits
  {
    if limits != [] {
      var key := limits[0].key;
      ChargedKeys(events[key := At(events, key) + [now]], limits[1..], now);
      assert limits == [limits[0]] + limits[1..];
      assert KeysOf(limits) == {key} + KeysOf(limits[1..]);
    }
  }

  /** Every key requested so far has been pruned to its live admissions. */
  ghost predicate Checked(events: Book, log: Book, cut: real, limits: seq<Limit>, n: nat)
    requires n <= |limits|
  {
    forall j | 0 <= j < n :: At(events, limits[j].key) == After(At(log, limits[j].key), cut)
  }

  lemma LiveKeysAgree(events: Book, log: Book, cut: real)
    requires Agree(events, log, cut)
    ensures LiveKeys(events, cut) == LiveKeys(log, cut)
  {
    forall k ensures k in LiveKeys(events, cut) <==> k in LiveKeys(log, cut) {
      assert Agrees(events, log, cut, k);
    }
  }

  lemma Subset(a: set<Key>, b: set<Key>)
    requires a <= b
    ensures |a| <= |b|
  {
    assert b == a + (b - a);
  }

  lemma CardUnion(a: set<Key>, b: set<Key>)
    ensures |a + b| == |a| + |b - a|
  {
    assert a + b == a + (b - a);
  }

  /** A deque that is still stored after the checks holds a live admission, so the capacity prune
      keeps it: the set of new keys is the same before and after that prune. */
  lemma NewKeysExact(events: Book, log: Book, cut: real, limits: seq<Limit>)
    requires Agree(events, log, cut) && Checked(events, log, cut, limits, |limits|) && NoneEmpty(events)
    ensures LiveKeys(log, cut) <= events.Keys
    ensures KeysOf(limits) - LiveKeys(log, cut) == KeysOf(limits) - events.Keys
  {
    LiveKeysAgree(events, log, cut);
    forall k | k in KeysOf(limits) && k in events ensures k in LiveKeys(log, cut) {
      var j :| 0 <= j < |limits| && limits[j].key == k;
      assert At(events, k) == After(At(log, k), cut);
    }
  }

  lemma RoomNeeded(events: Book, log: Book, cut: real, limits: seq<Limit>, newKeys: nat)
    requires Agree(events, log, cut) && Checked(events, log, cut, limits, |limits|) && NoneEmpty(events)
    requires newKeys == |KeysOf(limits) - events.Keys|
    ensures |events.Keys + KeysOf(limits)| == |events| + newKeys
    ensures Needed(log, limits, cut) == |LiveKeys(log, cut)| + newKeys <= |events| + newKeys
  {
    NewKeysExact(events, log, cut, limits);
    CardUnion(events.Keys, KeysOf(limits));
    CardUnion(LiveKeys(log, cut), KeysOf(limits));
    Subset(LiveKeys(log, cut), events.Keys);
  }

  class MultiScopeRateLimiter {
    const windowSeconds: nat
    const maxKeys: nat
    var events: Book
    ghost var log: Book   // every admission ever made
    ghost var horizon: real  // the latest clock reading less the window

    ghost predicate Valid()
      reads this
    {
      windowSeconds > 0 && |events| <= maxKeys && NoneEmpty(events) &&
      Agree(events, log, horizon)
    }

    constructor (windowSeconds: nat, maxKeys: nat, now: real)
      requires windowSeconds > 0
      ensures Valid() && log == map[] && horizon == Cut(now, windowSeconds)
      ensures this.windowSeconds == windowSeconds && this.maxKeys == maxKeys
    {
      this.windowSeconds := windowSeconds;
      this.maxKeys := maxKeys;
      events, log, horizon := map[], map[], Cut(now, windowSeconds);
    }

    static method Prune(events: seq<real>, cut: real) returns (left: seq<real>)
      ensures left == After(events, cut)
    {
      left := events;
      while left != [] && left[0] <= cut
        invariant After(left, cut) == After(events, cut)
        decreases |left|
      {
        left := left[1..];
      }
    }

    static method PruneMapping(entries: Book, cut: real) returns (left: Book)
      requires NoneEmpty(entries)
      ensures NoneEmpty(left) && left.Keys == LiveKeys(entries, cut)
      ensures forall k | k in left :: left[k] == After(entries[k], cut)
    {
      left := entries;
      var todo := entries.Keys;
      while todo != {}
        invariant NoneEmpty(left) && todo <= left.Keys <= entries.Keys
        invariant forall k | k in todo :: left[k] == entries[k]
        invariant forall k | k in entries && k !in todo ::
          if After(entries[k], cut) == [] then k !in left
          else k in left && left[k] == After(entries[k], cut)
        decreases |todo|
      {
        var key :| key in todo;
        var events := Prune(left[key], cut);
        if events == [] { left := left - {key}; } else { left := left[key := events]; }
        todo := todo - {key};
      }
    }

    /** Prunes the requested keys in order, up to the first full one. */
    method CheckScopes(limits: seq<Limit>, now: real, cut: real) returns (full: Option<Decision>)
      requires Valid() && horizon == cut
      modifies this`events
      ensures Valid()
      ensures var found := FirstFull(log, limits, 0, cut);
              full == if found.None? then None
                      else Some(DecideAt(log, limits, cut, now, windowSeconds, maxKeys))
      ensures full.None? ==> Checked(events, log, cut, limits, |limits|)
    {
      var i := 0;
      while i < |limits|
        invariant 0 <= i <= |limits| && Valid()
        invariant Checked(events, log, cut, limits, i)
        invariant FirstFull(log, limits, 0, cut) == FirstFull(log, limits, i, cut)
      {
        var key := limits[i].key;
        assert Agrees(events, log, cut, key);
        if key in events {
          var left := Prune(events[key], cut);
          Store(key, left, cut);
          assert Checked(events, log, cut, limits, i);
          if left != [] && |left| >= limits[i].limit {
            return Some(Denied(limits[i].scope, RetryAfter(left[0], now, windowSeconds)));
          }
        }
        i := i + 1;
      }
      return None;
    }

    /** Puts a pruned deque back, or forgets its key when nothing is left. */
    method Store(key: Key, left: seq<real>, ghost cut: real)
      requires Valid() && key in events && left == After(events[key], cut)
      requires cut == horizon
      modifies this`events
      ensures Valid()
      ensures forall k: Key :: At(events, k) == if k == key then left else At(old(events), k)
    {
      if left == [] {
        assert (events - {key}).Keys == events.Keys - {key};
        events := events - {key};
      } else {
        assert events[key := left].Keys == events.Keys;
        events := events[key := left];
      }
      AgreePruned(old(events), events, log, cut, key);
    }

    /** Decides whether the requested keys fit, pruning all keys first if that is needed. */
    method MakeRoom(limits: seq<Limit>, cut: real) returns (fits: bool)
      requires Valid() && horizon == cut
      requires Checked(events, log, cut, limits, |limits|)
      modifies this`events
      ensures Valid()
      ensures fits == (Needed(log, limits, cut) <= maxKeys)
      ensures fits ==> |events.Keys + KeysOf(limits)| <= maxKeys
    {
      var newKeys := |KeysOf(limits) - events.Keys|;
      RoomNeeded(events, log, cut, limits, newKeys);
      if |events| + newKeys > maxKeys {
        PruneAll(cut);
        CardUnion(events.Keys, KeysOf(limits));
      }
      fits := |events| + newKeys <= maxKeys;
    }

    /** Charges every requested key if the keys fit. */
    method Reserve(limits: seq<Limit>, now: real, cut: real) returns (fits: bool)
      requires Valid() && horizon == cut < now
      requires Checked(events, log, cut, limits, |limits|)
      modifies this`events, this`log
      ensures Valid()
      ensures fits == (Needed(old(log), limits, cut) <= maxKeys)
      ensures log == if fits then Charged(old(log), limits, now) else old(log)
    {
      fits := MakeRoom(limits, cut);
      if fits {
        ChargedKeys(events, limits, now);
        AgreeCharged(events, log, limits, cut, now);
        var charged := Charge(events, limits, now);
        assert |charged| == |charged.Keys|;
        log := Charged(log, limits, now);
        events := charged;
      }
    }

    method PruneAll(cut: real)
      requires Valid() && horizon == cut
      modifies this`events
      ensures Valid() && events.Keys == LiveKeys(log, cut)
    {
      LiveKeysAgree(events, log, cut);
      ghost var before := events;
      events := PruneMapping(events, cut);
      Subset(events.Keys, before.Keys);
      forall k: Key ensures Agrees(events, log, cut, k) {
        assert Agrees(before, log, cut, k);
        AfterAgain(At(before, k), cut, cut);
      }
    }

    /** The clock has been read: admissions up to the new cut no longer count. */
    ghost method Advance(cut: real)
      requires Valid() && horizon <= cut
      modifies this`horizon
      ensures Valid() && horizon == cut
    {
      AgreeLater(events, log, horizon, cut);
      horizon := cut;
    }

    method CheckKeyed(limits: seq<Limit>, now: real, cut: real) returns (decision: Decision)
      requires Valid() && horizon <= cut < now
      modifies this
      ensures Valid() && horizon == cut
      ensures decision == DecideAt(old(log), limits, cut, now, windowSeconds, maxKeys)
      ensures log == LoggedAt(old(log), limits, cut, now, windowSeconds, maxKeys)
    {
      Advance(cut);
      var full := CheckScopes(limits, now, cut);
      if full.Some? { return full.value; }
      var fits := Reserve(limits, now, cut);
      return if fits then Allowed else Denied("capacity", windowSeconds);
    }

    /** now is the clock reading of this check, which is not before an earlier one. */
    method Check(requests: seq<Request>, now: real) returns (decision: Decision)
      requires Valid() && horizon <= Cut(now, windowSeconds)
      modifies this
      ensures Valid() && horizon == Cut(now, windowSeconds)
      ensures decision == Decide(old(log), Keyed(requests), now, windowSeconds, maxKeys)
      ensures log == Logged(old(log), Keyed(requests), now, windowSeconds, maxKeys)
    {
      var limits := Keyed(requests);
      var cut := Cut(now, windowSeconds);
      decision := CheckKeyed(limits, now, cut);
    }

    static method Charge(book: Book, limits: seq<Limit>, now: real) returns (charged: Book)
      ensures charged == Charged(book, limits, now)
    {
      charged := book;
      var i := 0;
      while i < |limits|
        invariant 0 <= i <= |limits|
        invariant Charged(charged, limits[i..], now) == Charged(book, limits, now)
      {
        var key := limits[i].key;
        charged := charged[key := (if key in charged then charged[key] else []) + [now]];
        i := i + 1;
      }
    }
  }
}
