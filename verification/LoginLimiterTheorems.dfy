/** What the sign-in limiter promises over every interleaving of checks, successes and failures. */
module LoginLimiterTheorems {
  import opened Prelude
  import opened LoginLimiter

  /** One call, in the order in which the limiter's lock admits them. */
  datatype Op = Checked(key: Key, now: real) | Succeeded(lease: Lease) | Failed(lease: Lease)

  function Step(d: Desk, op: Op, attempts: int, window: nat, maxKeys: nat): Desk {
    match op
    case Checked(key, now) => Reserve(d, key, now, now - window as real, attempts, maxKeys)
    case Succeeded(lease) => Refund(d, lease)
    case Failed(_) => d
  }

  function Run(ops: seq<Op>, attempts: int, window: nat, maxKeys: nat): Desk {
    if ops == [] then Desk(map[], 0)
    else Step(Run(ops[..|ops| - 1], attempts, window, maxKeys), ops[|ops| - 1], attempts, window, maxKeys)
  }

  /** Checks read the clock in order, and none reads past now. */
  ghost predicate Timely(ops: seq<Op>, now: real) {
    ops == [] ||
    (var op := ops[|ops| - 1];
     if op.Checked? then op.now <= now && Timely(ops[..|ops| - 1], op.now)
     else Timely(ops[..|ops| - 1], now))
  }

  // ---------------------------------------------------------------- spacing

  /** Reservations that are gap places apart are at least a window apart. */
  ghost predicate Spaced(s: seq<Event>, gap: nat, window: nat) {
    forall i, j | 0 <= i < |s| && i + gap <= j < |s| :: s[j].at - s[i].at >= window as real
  }

  ghost predicate KeyOk(s: seq<Event>, issued: nat, now: real, gap: nat, window: nat) {
    Ordered(s, issued, now) && Spaced(s, gap, window)
  }

  function Gap(attempts: int): nat {
    if attempts < 1 then 1 else attempts
  }

  lemma {:induction false} LiveIsSuffix(s: seq<Event>, id: nat, at: real, cut: real)
    requires Ordered(s, id, at)
    ensures |Live(s, cut)| <= |s|
    ensures forall i | 0 <= i < |s| - |Live(s, cut)| :: s[i].at <= cut
    ensures forall i | |s| - |Live(s, cut)| <= i < |s| :: s[i].at > cut
  {
    if s != [] {
      LiveIsSuffix(Front(s), Last(s).id - 1, Last(s).at, cut);
      if Last(s).at <= cut {
        forall i | 0 <= i < |s| ensures s[i].at <= cut { OrderedAt(s, id, at, i, |s| - 1); }
        assert forall i | 0 <= i < |Front(s)| :: Front(s)[i].at <= cut;
        assert Live(Front(s), cut) == [];
      } else {
        assert forall i | 0 <= i < |Front(s)| :: Front(s)[i] == s[i];
      }
    }
  }

  lemma PushKeepsSpacing(s: seq<Event>, issued: nat, last: real, gap: nat, window: nat, now: real)
    requires KeyOk(s, issued, last, gap, window) && last <= now && 0 < gap && 0 < window
    requires |Live(s, now - window as real)| < gap
    ensures KeyOk(s + [Event(now, issued + 1)], issued + 1, now, gap, window)
  {
    LiveIsSuffix(s, issued, last, now - window as real);
    OrderedLater(s, issued, last, issued, now);
    PushOrdered(s, issued, now, Event(now, issued + 1));
  }

  lemma RefundKeepsSpacing(s: seq<Event>, issued: nat, now: real, gap: nat, window: nat, x: nat)
    requires KeyOk(s, issued, now, gap, window) && 0 < gap
    ensures KeyOk(Without(s, x), issued, now, gap, window)
  {
    WithoutOrdered(s, issued, now, x);
    if i: nat :| i < |s| && s[i].id == x {
      WithoutAt(s, issued, now, i, x);
      var t := s[..i] + s[i + 1..];
      forall a, b | 0 <= a < |t| && a + gap <= b < |t| ensures t[b].at - t[a].at >= window as real {
        var a', b' := if a < i then a else a + 1, if b < i then b else b + 1;
        assert t[a] == s[a'] && t[b] == s[b'];
      }
    } else {
      WithoutAbsent(s, x, issued, now);
    }
  }

  // ---------------------------------------------------------------- every run

  lemma StepKeeps(d: Desk, op: Op, k: Key, now: real, now': real, attempts: int, window: nat, maxKeys: nat)
    requires KeyOk(At(d.log, k), d.issued, now, Gap(attempts), window) && 0 < window
    requires now <= now' && (op.Checked? ==> op.now == now')
    ensures var d' := Step(d, op, attempts, window, maxKeys);
            KeyOk(At(d'.log, k), d'.issued, now', Gap(attempts), window)
  {
    var s := At(d.log, k);
    match op
    case Checked(key, _) => CheckKeeps(d, key, k, now, now', attempts, window, maxKeys);
    case Succeeded(lease) =>
      OrderedLater(s, d.issued, now, d.issued, now');
      RefundKeepsSpacing(s, d.issued, now', Gap(attempts), window, lease.id);
    case Failed(_) => OrderedLater(s, d.issued, now, d.issued, now');
  }

  lemma CheckKeeps(d: Desk, key: Key, k: Key, now: real, now': real, attempts: int, window: nat, maxKeys: nat)
    requires KeyOk(At(d.log, k), d.issued, now, Gap(attempts), window) && 0 < window && now <= now'
    ensures var d' := Step(d, Checked(key, now'), attempts, window, maxKeys);
            KeyOk(At(d'.log, k), d'.issued, now', Gap(attempts), window)
  {
    var d' := Step(d, Checked(key, now'), attempts, window, maxKeys);
    if key == k && d' != d {
      PushKeepsSpacing(At(d.log, k), d.issued, now, Gap(attempts), window, now');
    } else {
      OrderedLater(At(d.log, k), d.issued, now, d'.issued, now');
    }
  }

  lemma {:induction false} RunKeeps(ops: seq<Op>, k: Key, now: real, attempts: int, window: nat, maxKeys: nat)
    requires Timely(ops, now) && 0 < window
    ensures var d := Run(ops, attempts, window, maxKeys);
            KeyOk(At(d.log, k), d.issued, now, Gap(attempts), window)
    decreases ops
  {
    if ops != [] {
      var op, before := ops[|ops| - 1], ops[..|ops| - 1];
      var at := if op.Checked? then op.now else now;
      RunKeeps(before, k, at, attempts, window, maxKeys);
      var d := Run(before, attempts, window, maxKeys);
      StepKeeps(d, op, k, at, at, attempts, window, maxKeys);
      var d' := Run(ops, attempts, window, maxKeys);
      OrderedLater(At(d'.log, k), d'.issued, at, d'.issued, now);
    }
  }

  /** In every run a key's reservations are in order with distinct lease numbers, and those of any
      window that were not refunded are at most the allowed attempts. */
  lemma UnrefundedAttemptsBounded(ops: seq<Op>, k: Key, now: real, attempts: int, window: nat, maxKeys: nat,
                                  i: nat, j: nat)
    requires Timely(ops, now) && 0 < window
    requires i < j < |At(Run(ops, attempts, window, maxKeys).log, k)|
    ensures var s := At(Run(ops, attempts, window, maxKeys).log, k);
            s[i].id < s[j].id && s[i].at <= s[j].at &&
            (s[j].at - s[i].at < window as real ==> j - i < Gap(attempts))
  {
    RunKeeps(ops, k, now, attempts, window, maxKeys);
    var d := Run(ops, attempts, window, maxKeys);
    OrderedAt(At(d.log, k), d.issued, now, i, j);
  }

  lemma {:induction false} WithoutMembers(s: seq<Event>, x: nat, e: Event)
    ensures e in Without(s, x) <==> e in s && e.id != x
  {
    if s != [] {
      WithoutMembers(Front(s), x, e);
      assert s == Front(s) + [Last(s)];
    }
  }

  /** A success takes out the reservation of its own lease and nothing else. */
  lemma SuccessRefundsItsOwn(d: Desk, lease: Lease, k: Key, e: Event)
    ensures e in At(Refund(d, lease).log, k) <==>
            e in At(d.log, k) && !(k == lease.key && e.id == lease.id)
  {
    WithoutMembers(At(d.log, k), lease.id, e);
  }

  /** A refund undoes its own reservation, so a person who signs in is never locked out by it. */
  lemma {:induction false} ReserveThenRefund(d: Desk, key: Key, now: real, cut: real, attempts: int, maxKeys: nat,
                                             at: real)
    requires Ordered(At(d.log, key), d.issued, at)
    requires Refusal(d.log, key, cut, attempts, maxKeys).None?
    ensures var d' := Reserve(d, key, now, cut, attempts, maxKeys);
            At(Refund(d', Lease(key, d'.issued)).log, key) == At(d.log, key)
  {
    var s, e := At(d.log, key), Event(now, d.issued + 1);
    assert Front(s + [e]) == s;
    forall i | 0 <= i < |s| ensures s[i].id != e.id { OrderedAt(s, d.issued, at, i, i); }
    WithoutAbsent(s, e.id, d.issued, at);
  }

  // ---------------------------------------------------------------- one decision

  /** The places of the reservations made after the cut. */
  function Recent(s: seq<Event>, cut: real): set<nat> {
    set i: nat | i < |s| && s[i].at > cut
  }

  lemma {:induction false} LiveCounts(s: seq<Event>, cut: real)
    ensures |Live(s, cut)| == |Recent(s, cut)|
  {
    if s == [] {
      assert Recent(s, cut) == {};
    } else {
      var front := Front(s);
      LiveCounts(front, cut);
      assert forall i: nat | i < |front| :: front[i] == s[i];
      if Last(s).at > cut {
        assert Recent(s, cut) == Recent(front, cut) + {|s| - 1};
      } else {
        assert Recent(s, cut) == Recent(front, cut);
      }
    }
  }

  /** The keys with a reservation made after the cut. */
  ghost function Busy(log: Book, cut: real): set<Key> {
    set k | k in log && exists e :: e in log[k] && e.at > cut
  }

  /** A check is refused for too many attempts exactly if the key has at least that many recent
      reservations, and for lack of room exactly if it has none and too many other keys have one. */
  lemma RefusalMeans(log: Book, key: Key, cut: real, attempts: int, maxKeys: nat)
    ensures var n := if key in log then |Recent(log[key], cut)| else 0;
            Refusal(log, key, cut, attempts, maxKeys) ==
              if n >= 1 && n >= attempts then Some(TooManyAttempts)
              else if n == 0 && |Busy(log, cut)| >= maxKeys then Some(CapacityExceeded)
              else None
  {
    if key in log { LiveCounts(log[key], cut); }
    forall k ensures k in Busy(log, cut) <==> k in LiveKeys(log, cut) {
      if k in log { LiveSome(log[k], cut); }
    }
    assert Busy(log, cut) == LiveKeys(log, cut);
  }

  lemma {:induction false} LiveSome(s: seq<Event>, cut: real)
    ensures Live(s, cut) != [] <==> exists e :: e in s && e.at > cut
  {
    if s != [] {
      LiveSome(Front(s), cut);
      assert s == Front(s) + [Last(s)];
    }
  }

  /** A check of a key that is below its attempts, or new with room for one more key, reserves one attempt
      at its own time under a new lease; any other check changes nothing. */
  lemma ReserveOutcome(d: Desk, key: Key, now: real, attempts: int, window: nat, maxKeys: nat, k: Key)
    ensures var cut := now - window as real;
            var n := |Recent(At(d.log, key), cut)|;
            var d' := Step(d, Checked(key, now), attempts, window, maxKeys);
            if (n >= 1 && n >= attempts) || (n == 0 && |Busy(d.log, cut)| >= maxKeys) then d' == d
            else
              d'.issued == d.issued + 1 &&
              At(d'.log, k) == At(d.log, k) + if k == key then [Event(now, d.issued + 1)] else []
  {
    RefusalMeans(d.log, key, now - window as real, attempts, maxKeys);
    assert At(d.log, k) + [] == At(d.log, k);
  }
}
