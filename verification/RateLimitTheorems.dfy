/** What the limiter that never forgets, and so the real one, promises over whole runs. */
module RateLimitTheorems {
  import opened Prelude
  import opened RateLimit

  // ---------------------------------------------------------------- one decision

  /** A check passes exactly when no requested key is full and the keys in use fit. */
  lemma AllowedMeans(log: Book, limits: seq<Limit>, now: real, window: nat, maxKeys: nat)
    ensures Decide(log, limits, now, window, maxKeys) == Allowed <==>
            (forall j | 0 <= j < |limits| ::
               !Full(After(At(log, limits[j].key), Cut(now, window)), limits[j].limit)) &&
            Needed(log, limits, Cut(now, window)) <= maxKeys
  {
    AllowedAtMeans(log, limits, Cut(now, window), now, window, maxKeys);
  }

  lemma AllowedAtMeans(log: Book, limits: seq<Limit>, cut: real, now: real, window: nat, maxKeys: nat)
    ensures DecideAt(log, limits, cut, now, window, maxKeys) == Allowed <==>
            (forall j | 0 <= j < |limits| :: !Full(After(At(log, limits[j].key), cut), limits[j].limit)) &&
            Needed(log, limits, cut) <= maxKeys
  {
    FirstFullFound(log, limits, 0, cut);
  }

  /** The live admissions are the last ones, cut where the window begins. */
  lemma {:induction false} AfterIsSuffix(s: seq<real>, cut: real)
    ensures |After(s, cut)| <= |s| && After(s, cut) == s[|s| - |After(s, cut)|..]
    ensures forall i | 0 <= i < |s| - |After(s, cut)| :: s[i] <= cut
    ensures After(s, cut) != [] ==> After(s, cut)[0] > cut
  {
    if s != [] && s[0] <= cut {
      AfterIsSuffix(s[1..], cut);
      var n := |s| - |After(s, cut)|;
      forall i | 0 <= i < n ensures s[i] <= cut {
        if i > 0 { assert s[i] == s[1..][i - 1]; }
      }
    }
  }

  // ---------------------------------------------------------------- one key over a run

  ghost predicate Sorted(s: seq<real>) {
    forall i, j | 0 <= i <= j < |s| :: s[i] <= s[j]
  }

  /** Admissions that are gap places apart are at least a window apart. */
  ghost predicate Spaced(s: seq<real>, gap: nat, window: nat) {
    forall i, j | 0 <= i < |s| && i + gap <= j < |s| :: s[j] - s[i] >= window as real
  }

  ghost predicate KeyOk(s: seq<real>, gap: nat, window: nat, now: real) {
    Sorted(s) && Spaced(s, gap, window) && forall i | 0 <= i < |s| :: s[i] <= now
  }

  function Copies(now: real, n: nat): seq<real> {
    seq(n, _ => now)
  }

  function Asked(limits: seq<Limit>, k: Key): nat {
    if limits == [] then 0 else (if limits[0].key == k then 1 else 0) + Asked(limits[1..], k)
  }

  lemma {:induction false} ChargedAt(book: Book, limits: seq<Limit>, now: real, k: Key)
    ensures At(Charged(book, limits, now), k) == At(book, k) + Copies(now, Asked(limits, k))
    decreases limits
  {
    if limits != [] {
      var key := limits[0].key;
      ChargedAt(book[key := At(book, key) + [now]], limits[1..], now, k);
      if key == k {
        var n := Asked(limits[1..], k);
        assert [now] + Copies(now, n) == Copies(now, n + 1);
      }
    }
  }

  lemma {:induction false} AskedMeans(limits: seq<Limit>, k: Key)
    requires Asked(limits, k) > 0
    ensures exists j :: 0 <= j < |limits| && limits[j].key == k
  {
    if limits[0].key != k {
      AskedMeans(limits[1..], k);
      var j :| 0 <= j < |limits[1..]| && limits[1..][j].key == k;
      assert limits[j + 1].key == k;
    }
  }

  /** Charging a key that had fewer than limit live admissions keeps its admissions spaced. */
  lemma ChargeKeepsSpacing(s: seq<real>, limit: nat, copies: nat, n: nat, window: nat, last: real, now: real)
    requires 0 < limit && n <= copies && window > 0 && last <= now
    requires KeyOk(s, limit + copies - 1, window, last)
    requires |After(s, Cut(now, window))| < limit
    ensures KeyOk(s + Copies(now, n), limit + copies - 1, window, now)
  {
    AfterIsSuffix(s, Cut(now, window));
    var s', gap := s + Copies(now, n), limit + copies - 1;
    forall i, j | 0 <= i < |s'| && i + gap <= j < |s'| ensures s'[j] - s'[i] >= window as real {
      if j >= |s| {
        assert i < |s| - |After(s, Cut(now, window))|;
      }
    }
  }

  /** One admission check: the limiter's arguments and the clock reading. */
  datatype Call = Call(limits: seq<Limit>, now: real)

  function RunLog(calls: seq<Call>, window: nat, maxKeys: nat): Book {
    if calls == [] then map[]
    else
      var call := calls[|calls| - 1];
      Logged(RunLog(calls[..|calls| - 1], window, maxKeys), call.limits, call.now, window, maxKeys)
  }

  ghost predicate Timely(calls: seq<Call>) {
    forall i, j | 0 <= i <= j < |calls| :: calls[i].now <= calls[j].now
  }

  /** Every call asks for the key with at most the given limit, and at most copies times. */
  ghost predicate Asks(calls: seq<Call>, k: Key, limit: nat, copies: nat) {
    forall c | c in calls ::
      Asked(c.limits, k) <= copies && forall l | l in c.limits && l.key == k :: l.limit <= limit
  }

  /** The key that an allowed check asks for had room. */
  lemma AllowedHadRoom(log: Book, limits: seq<Limit>, now: real, k: Key, limit: nat, window: nat, maxKeys: nat)
    requires Decide(log, limits, now, window, maxKeys) == Allowed
    requires 0 < limit && Asked(limits, k) > 0 && forall l | l in limits && l.key == k :: l.limit <= limit
    ensures |After(At(log, k), Cut(now, window))| < limit
  {
    AskedMeans(limits, k);
    var j :| 0 <= j < |limits| && limits[j].key == k;
    assert limits[j] in limits;
    AllowedMeans(log, limits, now, window, maxKeys);
  }

  lemma CheckKeepsSpacing(log: Book, call: Call, k: Key, limit: nat, copies: nat, window: nat, maxKeys: nat, last: real)
    requires 0 < limit && 0 < copies && 0 < window && last <= call.now
    requires Asked(call.limits, k) <= copies && forall l | l in call.limits && l.key == k :: l.limit <= limit
    requires KeyOk(At(log, k), limit + copies - 1, window, last)
    ensures KeyOk(At(Logged(log, call.limits, call.now, window, maxKeys), k), limit + copies - 1, window, call.now)
  {
    var s, n := At(log, k), Asked(call.limits, k);
    var s' := At(Logged(log, call.limits, call.now, window, maxKeys), k);
    if Decide(log, call.limits, call.now, window, maxKeys) == Allowed {
      ChargedAt(log, call.limits, call.now, k);
      assert s' == s + Copies(call.now, n);
    }
    if s' != s {
      assert n > 0 by {
        assert s + Copies(call.now, 0) == s;
      }
      AllowedHadRoom(log, call.limits, call.now, k, limit, window, maxKeys);
      ChargeKeepsSpacing(s, limit, copies, n, window, last, call.now);
    }
  }

  lemma {:induction false} RunKeepsSpacing(calls: seq<Call>, k: Key, limit: nat, copies: nat, window: nat, maxKeys: nat)
    requires Timely(calls) && Asks(calls, k, limit, copies) && 0 < limit && 0 < copies && 0 < window
    requires calls != []
    ensures KeyOk(At(RunLog(calls, window, maxKeys), k), limit + copies - 1, window, calls[|calls| - 1].now)
    decreases calls
  {
    var before, call := calls[..|calls| - 1], calls[|calls| - 1];
    var log := RunLog(before, window, maxKeys);
    assert call in calls;
    if before != [] {
      RunKeepsSpacing(before, k, limit, copies, window, maxKeys);
      CheckKeepsSpacing(log, call, k, limit, copies, window, maxKeys, before[|before| - 1].now);
    } else {
      CheckKeepsSpacing(log, call, k, limit, copies, window, maxKeys, call.now);
    }
  }

  /** The admissions in the window that ends at time t. */
  ghost function Within(s: seq<real>, window: nat, t: real): set<nat> {
    set i: nat | i < |s| && t - window as real < s[i] <= t
  }

  lemma {:induction false} RangeSize(a: set<nat>, lo: nat, n: nat)
    requires forall i | i in a :: lo <= i < lo + n
    ensures |a| <= n
  {
    if n == 0 {
      assert a == {};
    } else {
      var b := a - {lo + n - 1};
      RangeSize(b, lo, n - 1);
      if lo + n - 1 in a { assert a == b + {lo + n - 1}; } else { assert a == b; }
    }
  }

  lemma WithinSize(s: seq<real>, gap: nat, window: nat, now: real, t: real)
    requires KeyOk(s, gap, window, now)
    ensures |Within(s, window, t)| <= gap
  {
    var a := Within(s, window, t);
    if a != {} {
      var i :| i in a;
      var lo := First(a, i);
      forall j | j in a ensures lo <= j < lo + gap {
        assert s[j] - s[lo] < window as real;
      }
      RangeSize(a, lo, gap);
    }
  }

  ghost function First(a: set<nat>, i: nat): (lo: nat)
    requires i in a
    ensures lo in a && forall j | j in a :: lo <= j
    decreases i
  {
    if j: nat :| j in a && j < i then First(a, j) else i
  }

  /** Over any run, with distinct keys in each call, no window holds more admissions of a key than
      its limit; a key repeated in one call can exceed it by the repetitions. */
  lemma WindowBound(calls: seq<Call>, k: Key, limit: nat, copies: nat, window: nat, maxKeys: nat, t: real)
    requires Timely(calls) && Asks(calls, k, limit, copies) && 0 < limit && 0 < copies && 0 < window
    ensures |Within(At(RunLog(calls, window, maxKeys), k), window, t)| <= limit + copies - 1
  {
    if calls == [] {
      assert Within([], window, t) == {};
    } else {
      RunKeepsSpacing(calls, k, limit, copies, window, maxKeys);
      WithinSize(At(RunLog(calls, window, maxKeys), k), limit + copies - 1, window, calls[|calls| - 1].now, t);
    }
  }

  // ---------------------------------------------------------------- the bound is reached

  /** limit - 1 checks of one key, and then one check that names the key several times. */
  function Burst(l: Limit, copies: nat): seq<Call>
    requires l.limit >= 1
  {
    Singles(l, l.limit - 1) + [Call(seq(copies, _ => l), 0.0)]
  }

  function Singles(l: Limit, n: nat): seq<Call> {
    seq(n, _ => Call([l], 0.0))
  }

  lemma {:induction false} AskedRepeated(l: Limit, n: nat)
    ensures Asked(seq(n, _ => l), l.key) == n
  {
    if n > 0 {
      AskedRepeated(l, n - 1);
      assert seq(n, _ => l)[1..] == seq(n - 1, _ => l);
    }
  }

  lemma AfterCopies(n: nat, cut: real)
    requires cut < 0.0
    ensures After(Copies(0.0, n), cut) == Copies(0.0, n)
  {
  }

  /** The history of a run that has only ever charged one key, at time zero. */
  ghost predicate Only(log: Book, k: Key, n: nat) {
    log.Keys <= {k} && At(log, k) == Copies(0.0, n)
  }

  lemma OnlyNeedsOneKey(log: Book, l: Limit, limits: seq<Limit>, n: nat, cut: real)
    requires Only(log, l.key, n) && forall x | x in limits :: x == l
    ensures Needed(log, limits, cut) <= 1
  {
    assert LiveKeys(log, cut) + KeysOf(limits) <= {l.key};
    Subset(LiveKeys(log, cut) + KeysOf(limits), {l.key});
  }

  lemma BurstAllowed(log: Book, l: Limit, limits: seq<Limit>, n: nat, cut: real, window: nat, maxKeys: nat)
    requires Only(log, l.key, n) && n < l.limit && cut < 0.0 && 0 < maxKeys && forall x | x in limits :: x == l
    ensures DecideAt(log, limits, cut, 0.0, window, maxKeys) == Allowed
  {
    BurstNotFull(log, l, limits, n, cut);
    OnlyNeedsOneKey(log, l, limits, n, cut);
    AllowedAtMeans(log, limits, cut, 0.0, window, maxKeys);
  }

  lemma BurstNotFull(log: Book, l: Limit, limits: seq<Limit>, n: nat, cut: real)
    requires Only(log, l.key, n) && n < l.limit && cut < 0.0 && forall x | x in limits :: x == l
    ensures forall j | 0 <= j < |limits| :: !Full(After(At(log, limits[j].key), cut), limits[j].limit)
  {
    AfterCopies(n, cut);
    forall j | 0 <= j < |limits| ensures limits[j] == l { assert limits[j] in limits; }
  }

  /** A key with fewer admissions than its limit takes as many charges as the check asks for. */
  lemma BurstStep(log: Book, l: Limit, n: nat, copies: nat, window: nat, maxKeys: nat)
    requires Only(log, l.key, n) && n < l.limit && 0 < window && 0 < maxKeys
    ensures Only(Logged(log, seq(copies, _ => l), 0.0, window, maxKeys), l.key, n + copies)
  {
    BurstAllowed(log, l, seq(copies, _ => l), n, Cut(0.0, window), window, maxKeys);
    BurstCharged(log, l, n, copies);
  }

  lemma BurstCharged(log: Book, l: Limit, n: nat, copies: nat)
    requires Only(log, l.key, n)
    ensures Only(Charged(log, seq(copies, _ => l), 0.0), l.key, n + copies)
  {
    var limits := seq(copies, _ => l);
    ChargedAt(log, limits, 0.0, l.key);
    AskedRepeated(l, copies);
    ChargedOnly(log, limits, 0.0, l.key);
    assert Copies(0.0, n) + Copies(0.0, copies) == Copies(0.0, n + copies);
  }

  lemma {:induction false} ChargedOnly(log: Book, limits: seq<Limit>, now: real, k: Key)
    requires log.Keys <= {k} && forall x | x in limits :: x.key == k
    ensures Charged(log, limits, now).Keys <= {k}
    decreases limits
  {
    if limits != [] {
      assert limits[0] in limits && forall x | x in limits[1..] :: x in limits;
      ChargedOnly(log[limits[0].key := At(log, limits[0].key) + [now]], limits[1..], now, k);
    }
  }

  lemma {:induction false} SinglesRun(l: Limit, n: nat, window: nat, maxKeys: nat)
    requires n < l.limit && 0 < window && 0 < maxKeys
    ensures Only(RunLog(Singles(l, n), window, maxKeys), l.key, n)
  {
    if n > 0 {
      SinglesRun(l, n - 1, window, maxKeys);
      assert Singles(l, n)[..n - 1] == Singles(l, n - 1);
      assert seq(1, _ => l) == [l];
      BurstStep(RunLog(Singles(l, n - 1), window, maxKeys), l, n - 1, 1, window, maxKeys);
    }
  }

  lemma {:induction false} WithinCopies(n: nat, window: nat)
    requires 0 < window
    ensures |Within(Copies(0.0, n), window, 0.0)| == n
  {
    if n == 0 {
      assert Within(Copies(0.0, 0), window, 0.0) == {};
    } else {
      WithinCopies(n - 1, window);
      assert Within(Copies(0.0, n), window, 0.0) == Within(Copies(0.0, n - 1), window, 0.0) + {n - 1};
    }
  }

  /** For every limit and every number of repetitions there is a run that reaches the bound. */
  lemma BoundIsReached(l: Limit, copies: nat, window: nat, maxKeys: nat)
    requires l.limit >= 1 && copies >= 1 && 0 < window && 0 < maxKeys
    ensures Timely(Burst(l, copies)) && Asks(Burst(l, copies), l.key, l.limit, copies)
    ensures |Within(At(RunLog(Burst(l, copies), window, maxKeys), l.key), window, 0.0)| == l.limit + copies - 1
  {
    var calls, n := Burst(l, copies), l.limit - 1;
    AskedRepeated(l, copies);
    assert Asked([l], l.key) == 1 by { assert [l][1..] == []; }
    SinglesRun(l, n, window, maxKeys);
    assert calls[..|calls| - 1] == Singles(l, n);
    BurstStep(RunLog(Singles(l, n), window, maxKeys), l, n, copies, window, maxKeys);
    WithinCopies(n + copies, window);
  }

  /** No run of the key puts more than limit admissions of it into a window. */
  ghost predicate LimitHolds(k: Key, limit: nat, copies: nat, window: nat, maxKeys: nat) {
    forall calls, t: real {:trigger Within(At(RunLog(calls, window, maxKeys), k), window, t)} |
      Timely(calls) && Asks(calls, k, limit, copies) ::
      |Within(At(RunLog(calls, window, maxKeys), k), window, t)| <= limit
  }

  /** The limit holds in every run if and only if no check may name the key more than once. */
  lemma LimitHoldsIffNotRepeated(l: Limit, copies: nat, window: nat, maxKeys: nat)
    requires l.limit >= 1 && copies >= 1 && 0 < window && 0 < maxKeys
    ensures LimitHolds(l.key, l.limit, copies, window, maxKeys) <==> copies == 1
  {
    if copies == 1 {
      forall calls, t: real | Timely(calls) && Asks(calls, l.key, l.limit, copies)
        ensures |Within(At(RunLog(calls, window, maxKeys), l.key), window, t)| <= l.limit
      {
        WindowBound(calls, l.key, l.limit, copies, window, maxKeys, t);
      }
    } else {
      BoundIsReached(l, copies, window, maxKeys);
    }
  }

  // ---------------------------------------------------------------- Retry-After

  /** How long the key stays full without a new charge: until the admission that is limit places
      from the end leaves the window. */
  function Delay(live: seq<real>, limit: int, now: real, window: nat): real
    requires Full(live, limit)
  {
    live[if limit < 1 then |live| - 1 else |live| - limit] + window as real - now
  }

  /** After waiting, the key is free exactly if the wait reached the delay. */
  lemma FullUntilDelay(s: seq<real>, limit: int, now: real, window: nat, wait: real)
    requires Sorted(s) && wait >= 0.0
    requires Full(After(s, Cut(now, window)), limit)
    ensures !Full(After(s, Cut(now + wait, window)), limit) <==>
            wait >= Delay(After(s, Cut(now, window)), limit, now, window)
  {
    var cut, cut' := Cut(now, window), Cut(now + wait, window);
    AfterIsSuffix(s, cut);
    AfterIsSuffix(s, cut');
    var live := After(s, cut);
    var last := |s| - (if limit < 1 then 1 else limit);
    assert s[last] == live[if limit < 1 then |live| - 1 else |live| - limit];
    var first := |s| - |After(s, cut')|;
    assert first <= last ==> s[first] <= s[last];
  }

  /** The header value suffices, is at most a second too long, and anything shorter than the true
      delay fails, whenever the key holds no more live admissions than its limit allows. */
  lemma RetryAfterIsTight(s: seq<real>, limit: int, now: real, window: nat, wait: real)
    requires Sorted(s) && wait >= 0.0
    requires Full(After(s, Cut(now, window)), limit)
    requires |After(s, Cut(now, window))| <= (if limit < 1 then 1 else limit)
    ensures var live := After(s, Cut(now, window));
            var retry := RetryAfter(live[0], now, window);
            var delay := Delay(live, limit, now, window);
            retry >= 1 && delay < retry as real <= delay + 1.0 &&
            (wait >= retry as real ==> !Full(After(s, Cut(now + wait, window)), limit)) &&
            (wait < delay ==> Full(After(s, Cut(now + wait, window)), limit))
  {
    AfterIsSuffix(s, Cut(now, window));
    FullUntilDelay(s, limit, now, window, wait);
  }

  /** In a run with distinct keys that premise holds at every moment. */
  lemma LiveWithinLimit(calls: seq<Call>, k: Key, limit: nat, window: nat, maxKeys: nat, now: real)
    requires Timely(calls) && Asks(calls, k, limit, 1) && 0 < limit && 0 < window
    requires forall c | c in calls :: c.now <= now
    ensures |After(At(RunLog(calls, window, maxKeys), k), Cut(now, window))| <= limit
    ensures Sorted(At(RunLog(calls, window, maxKeys), k))
  {
    if calls != [] {
      RunKeepsSpacing(calls, k, limit, 1, window, maxKeys);
      var s := At(RunLog(calls, window, maxKeys), k);
      AfterIsSuffix(s, Cut(now, window));
      var live := After(s, Cut(now, window));
      assert calls[|calls| - 1] in calls;
      assert live != [] ==> s[|s| - 1] - s[|s| - |live|] < window as real;
    }
  }

  /** End to end: in a timely run that never repeats the key, a denial for the key names its scope and
      a value; waiting that long frees the key, any wait shorter than the true delay does not, and the
      value is at most a second too long. */
  lemma DenialTellsWhenToRetry(calls: seq<Call>, limits: seq<Limit>, now: real, window: nat, maxKeys: nat,
                               i: nat, wait: real)
    requires Timely(calls) && 0 < window && wait >= 0.0 && forall c | c in calls :: c.now <= now
    requires FirstFull(RunLog(calls, window, maxKeys), limits, 0, Cut(now, window)) == Some(i)
    requires i < |limits| && 0 < limits[i].limit && Asks(calls, limits[i].key, limits[i].limit, 1)
    ensures var l := limits[i];
            var s := At(RunLog(calls, window, maxKeys), l.key);
            var live := After(s, Cut(now, window));
            var decision := Decide(RunLog(calls, window, maxKeys), limits, now, window, maxKeys);
            decision.Denied? && decision.scope == l.scope && decision.retryAfter >= 1 && Full(live, l.limit) &&
            var delay := Delay(live, l.limit, now, window);
            delay < decision.retryAfter as real <= delay + 1.0 &&
            (wait >= decision.retryAfter as real ==> !Full(After(s, Cut(now + wait, window)), l.limit)) &&
            (wait < delay ==> Full(After(s, Cut(now + wait, window)), l.limit))
  {
    var log := RunLog(calls, window, maxKeys);
    FirstFullFound(log, limits, 0, Cut(now, window));
    LiveWithinLimit(calls, limits[i].key, limits[i].limit, window, maxKeys, now);
    RetryAfterIsTight(At(log, limits[i].key), limits[i].limit, now, window, wait);
  }

  // ---------------------------------------------------------------- one decision, in full

  /** The places of the admissions after the cut. */
  function Recent(s: seq<real>, cut: real): set<nat> {
    set i: nat | i < |s| && s[i] > cut
  }

  lemma AfterCounts(s: seq<real>, cut: real)
    requires Sorted(s)
    ensures |After(s, cut)| == |Recent(s, cut)|
  {
    AfterIsSuffix(s, cut);
    var n := |s| - |After(s, cut)|;
    forall i: nat ensures i in Recent(s, cut) <==> n <= i < n + |After(s, cut)| {
      if n <= i < |s| { assert s[n] <= s[i]; }
    }
    RangeExact(Recent(s, cut), n, |After(s, cut)|);
  }

  lemma {:induction false} RangeExact(a: set<nat>, lo: nat, n: nat)
    requires forall i: nat :: i in a <==> lo <= i < lo + n
    ensures |a| == n
  {
    if n == 0 {
      assert a == {};
    } else {
      var last := lo + n - 1;
      RangeExact(a - {last}, lo, n - 1);
      assert a == (a - {last}) + {last};
    }
  }

  ghost predicate SortedUpTo(s: seq<real>, now: real) {
    Sorted(s) && forall i | 0 <= i < |s| :: s[i] <= now
  }

  lemma SortedPush(s: seq<real>, last: real, now: real, n: nat)
    requires SortedUpTo(s, last) && last <= now
    ensures SortedUpTo(s, now) && SortedUpTo(s + Copies(now, n), now)
  {
  }

  lemma LoggedAtKey(log: Book, limits: seq<Limit>, now: real, window: nat, maxKeys: nat, k: Key)
    ensures exists n: nat :: At(Logged(log, limits, now, window, maxKeys), k) == At(log, k) + Copies(now, n)
  {
    ChargedAt(log, limits, now, k);
    assert At(log, k) + Copies(now, 0) == At(log, k);
  }

  lemma {:induction false} RunSorted(calls: seq<Call>, k: Key, window: nat, maxKeys: nat)
    requires Timely(calls)
    ensures calls == [] ==> At(RunLog(calls, window, maxKeys), k) == []
    ensures calls != [] ==> SortedUpTo(At(RunLog(calls, window, maxKeys), k), calls[|calls| - 1].now)
    decreases calls
  {
    if calls != [] {
      var before, call := calls[..|calls| - 1], calls[|calls| - 1];
      var log := RunLog(before, window, maxKeys);
      RunSorted(before, k, window, maxKeys);
      LoggedAtKey(log, call.limits, call.now, window, maxKeys, k);
      var n: nat :| At(Logged(log, call.limits, call.now, window, maxKeys), k) == At(log, k) + Copies(call.now, n);
      if before != [] {
        SortedPush(At(log, k), before[|before| - 1].now, call.now, n);
      } else {
        SortedPush([], call.now, call.now, n);
      }
    }
  }

  lemma RunCounts(calls: seq<Call>, k: Key, window: nat, maxKeys: nat, cut: real)
    requires Timely(calls)
    ensures var s := At(RunLog(calls, window, maxKeys), k);
            |After(s, cut)| == |Recent(s, cut)| && (After(s, cut) != [] <==> Recent(s, cut) != {})
  {
    RunSorted(calls, k, window, maxKeys);
    AfterCounts(At(RunLog(calls, window, maxKeys), k), cut);
  }

  /** The keys with a recent admission, and those the check asks for. */
  function InUse(log: Book, limits: seq<Limit>, cut: real): set<Key> {
    (set k | k in log && Recent(log[k], cut) != {}) + set l | l in limits :: l.key
  }

  /** A key without recent admissions has room whatever its limit. */
  predicate RoomFor(s: seq<real>, limit: int, cut: real) {
    Recent(s, cut) == {} || |Recent(s, cut)| < limit
  }

  lemma RoomMeans(calls: seq<Call>, l: Limit, window: nat, maxKeys: nat, cut: real)
    requires Timely(calls)
    ensures var s := At(RunLog(calls, window, maxKeys), l.key);
            Full(After(s, cut), l.limit) <==> !RoomFor(s, l.limit, cut)
  {
    RunCounts(calls, l.key, window, maxKeys, cut);
  }

  lemma KeysInUse(calls: seq<Call>, limits: seq<Limit>, window: nat, maxKeys: nat, cut: real)
    requires Timely(calls)
    ensures InUse(RunLog(calls, window, maxKeys), limits, cut) ==
            LiveKeys(RunLog(calls, window, maxKeys), cut) + KeysOf(limits)
  {
    var log := RunLog(calls, window, maxKeys);
    forall k | k in log ensures After(log[k], cut) != [] <==> Recent(log[k], cut) != {} {
      RunCounts(calls, k, window, maxKeys, cut);
    }
  }

  /** Each requested key has room, and the keys in use fit. */
  ghost predicate Passes(log: Book, limits: seq<Limit>, cut: real, maxKeys: nat) {
    (forall j | 0 <= j < |limits| :: RoomFor(At(log, limits[j].key), limits[j].limit, cut)) &&
    |InUse(log, limits, cut)| <= maxKeys
  }

  lemma PassesAt(calls: seq<Call>, limits: seq<Limit>, cut: real, now: real, window: nat, maxKeys: nat)
    requires Timely(calls)
    ensures var log := RunLog(calls, window, maxKeys);
            DecideAt(log, limits, cut, now, window, maxKeys) == Allowed <==> Passes(log, limits, cut, maxKeys)
  {
    var log := RunLog(calls, window, maxKeys);
    AllowedAtMeans(log, limits, cut, now, window, maxKeys);
    forall j | 0 <= j < |limits|
      ensures Full(After(At(log, limits[j].key), cut), limits[j].limit) <==>
              !RoomFor(At(log, limits[j].key), limits[j].limit, cut)
    {
      RoomMeans(calls, limits[j], window, maxKeys, cut);
    }
    KeysInUse(calls, limits, window, maxKeys, cut);
  }

  lemma DecideIs(log: Book, limits: seq<Limit>, cut: real, now: real, window: nat, maxKeys: nat)
    requires cut == now - window as real
    ensures Decide(log, limits, now, window, maxKeys) == DecideAt(log, limits, cut, now, window, maxKeys)
  {
  }

  /** After any run a check passes exactly if each of its keys has room within the window, and the keys in
      use fit. */
  lemma PassesExactly(calls: seq<Call>, limits: seq<Limit>, now: real, cut: real, window: nat, maxKeys: nat)
    requires Timely(calls) && cut == now - window as real
    ensures var log := RunLog(calls, window, maxKeys);
            Decide(log, limits, now, window, maxKeys) == Allowed <==> Passes(log, limits, cut, maxKeys)
  {
    PassesAt(calls, limits, cut, now, window, maxKeys);
    DecideIs(RunLog(calls, window, maxKeys), limits, cut, now, window, maxKeys);
  }

  /** The i-th key has no room, and those asked for before it do. */
  ghost predicate FirstWithoutRoom(log: Book, limits: seq<Limit>, cut: real, i: nat)
    requires i < |limits|
  {
    !RoomFor(At(log, limits[i].key), limits[i].limit, cut) &&
    forall j | 0 <= j < i :: RoomFor(At(log, limits[j].key), limits[j].limit, cut)
  }

  lemma {:induction false} FirstFullIs(calls: seq<Call>, limits: seq<Limit>, i: nat, j: nat, window: nat, maxKeys: nat,
                                       cut: real)
    requires Timely(calls) && i <= j <= |limits|
    requires var log := RunLog(calls, window, maxKeys);
             (forall n | i <= n < j :: RoomFor(At(log, limits[n].key), limits[n].limit, cut)) &&
             (j < |limits| ==> !RoomFor(At(log, limits[j].key), limits[j].limit, cut))
    ensures FirstFull(RunLog(calls, window, maxKeys), limits, i, cut) == if j < |limits| then Some(j) else None
    decreases j - i
  {
    if i < |limits| { RoomMeans(calls, limits[i], window, maxKeys, cut); }
    if i < j { FirstFullIs(calls, limits, i + 1, j, window, maxKeys, cut); }
  }

  /** A denial names the first requested key without room. If all have room the keys in use do not fit, and
      a whole window is asked for. */
  lemma DenialNamesTheFirst(calls: seq<Call>, limits: seq<Limit>, i: nat, now: real, cut: real, window: nat,
                            maxKeys: nat)
    requires Timely(calls) && cut == now - window as real && i <= |limits|
    requires var log := RunLog(calls, window, maxKeys);
             !Passes(log, limits, cut, maxKeys) &&
             if i < |limits| then FirstWithoutRoom(log, limits, cut, i)
             else forall j | 0 <= j < |limits| :: RoomFor(At(log, limits[j].key), limits[j].limit, cut)
    ensures var d := Decide(RunLog(calls, window, maxKeys), limits, now, window, maxKeys);
            if i < |limits| then d.Denied? && d.scope == limits[i].scope else d == Denied("capacity", window)
  {
    PassesAt(calls, limits, cut, now, window, maxKeys);
    DecideIs(RunLog(calls, window, maxKeys), limits, cut, now, window, maxKeys);
    FirstFullIs(calls, limits, 0, i, window, maxKeys, cut);
  }
}
