/**
 The restart budget of one exchange. `ExchangeProcess` keeps two fields, a count and the time
 of the last restart; what they imply about restarts per hour is proved here over whole runs.
 */
module RestartBudget {
  import opened Prelude

  datatype Counter = Counter(count: nat, last: Option<real>)

  const HOUR: real := 3600.0

  /** The seconds `_restart_exchange` waits between stopping the old process and starting the new one. */
  const PAUSE: real := 1.0

  const FRESH := Counter(0, None)

  /** `should_restart`: the verdict, and the counter it leaves behind. */
  function ShouldRestart(k: Counter, max: int, now: real): (bool, Counter) {
    if k.count >= max && k.last.Some? then
      if now - k.last.value < HOUR then (false, k) else (true, FRESH)
    else (true, k)
  }

  /** The counter of the new process once a restart has succeeded. */
  function Recorded(k: Counter, now: real): Counter {
    Counter(k.count + 1, Some(now))
  }

  /**
   One successful restart: when it was decided and when it was recorded. Crash restarts ask
   for the budget; memory and manual restarts do not.
   */
  datatype Restart = Restart(crash: bool, decided: real, recorded: real)

  function After(k: Counter, e: Restart, max: int): Counter {
    Recorded(if e.crash then ShouldRestart(k, max, e.decided).1 else k, e.recorded)
  }

  /** The counter after a chain of restarts of one exchange. */
  function Counted(chain: seq<Restart>, max: int): Counter {
    if chain == [] then FRESH
    else After(Counted(chain[..|chain| - 1], max), chain[|chain| - 1], max)
  }

  /** Restarts of one id do not overlap, the clock does not run back, and every crash restart was allowed. */
  predicate Chain(chain: seq<Restart>, max: int) {
    chain != [] ==>
      var earlier := chain[..|chain| - 1];
      var e := chain[|chain| - 1];
      && Chain(earlier, max)
      && (earlier != [] ==> earlier[|earlier| - 1].recorded <= e.decided)
      && e.decided <= e.recorded
      && (e.crash ==> ShouldRestart(Counted(earlier, max), max, e.decided).0)
  }

  predicate InWindow(e: Restart, from: real) {
    from <= e.recorded < from + HOUR
  }

  /** Crash restarts recorded in the half-open hour that begins at `from`. */
  function CrashesIn(chain: seq<Restart>, from: real): nat {
    if chain == [] then 0
    else
      var e := chain[|chain| - 1];
      CrashesIn(chain[..|chain| - 1], from) + (if e.crash && InWindow(e, from) then 1 else 0)
  }

  /** All restarts recorded in that hour. */
  function RestartsIn(chain: seq<Restart>, from: real): nat {
    if chain == [] then 0
    else RestartsIn(chain[..|chain| - 1], from) + (if InWindow(chain[|chain| - 1], from) then 1 else 0)
  }

  function Max(a: int, b: int): int {
    if a >= b then a else b
  }

  /** Recorded times follow the order of the chain. */
  lemma {:induction false} Ordered(chain: seq<Restart>, max: int, i: nat, j: nat)
    requires Chain(chain, max) && i <= j < |chain|
    ensures chain[i].recorded <= chain[j].recorded
  {
    if i < |chain| - 1 {
      var earlier := chain[..|chain| - 1];
      Ordered(earlier, max, i, if j < |earlier| then j else |earlier| - 1);
    }
  }

  /** The last-restart field is the time of the last restart of the chain. */
  lemma LastIsRecorded(chain: seq<Restart>, max: int)
    ensures Counted(chain, max).last == if chain == [] then None else Some(chain[|chain| - 1].recorded)
    ensures Counted(chain, max).count <= |chain|
  {
  }

  lemma {:induction false} EmptyBefore(chain: seq<Restart>, max: int, from: real)
    requires Chain(chain, max) && (chain == [] || chain[|chain| - 1].recorded < from)
    ensures RestartsIn(chain, from) == CrashesIn(chain, from) == 0
  {
    if chain != [] {
      var earlier := chain[..|chain| - 1];
      EmptyBefore(earlier, max, from);
    }
  }

  /**
   The invariant behind the bound: while the chain has not left the window, the counter is at
   least the number of restarts in the window, of any kind. A reset inside the window would
   need an hour without restarts.
   */
  lemma {:induction false} CounterCoversWindow(chain: seq<Restart>, max: int, from: real)
    requires Chain(chain, max) && (chain == [] || chain[|chain| - 1].recorded < from + HOUR)
    ensures CrashesIn(chain, from) <= RestartsIn(chain, from) <= Counted(chain, max).count
    ensures CrashesIn(chain, from) <= Max(1, max)
  {
    if chain != [] {
      var earlier := chain[..|chain| - 1];
      var e := chain[|chain| - 1];
      LastIsRecorded(earlier, max);
      if earlier == [] || earlier[|earlier| - 1].recorded < from {
        EmptyBefore(earlier, max, from);
      } else {
        CounterCoversWindow(earlier, max, from);
      }
    }
  }

  /**
   The sliding window bound: over any run of successful restarts of one exchange, whatever
   memory and manual restarts are mixed in, every hour holds at most max_restarts_per_hour
   crash restarts; one, when the setting is zero or negative.
   */
  lemma {:induction false} WindowBound(chain: seq<Restart>, max: int, from: real)
    requires Chain(chain, max)
    ensures CrashesIn(chain, from) <= Max(1, max)
  {
    if chain == [] || chain[|chain| - 1].recorded < from + HOUR {
      CounterCoversWindow(chain, max, from);
    } else {
      WindowBound(chain[..|chain| - 1], max, from);
    }
  }

  /** One more restart at the end of a chain. */
  lemma Append(chain: seq<Restart>, e: Restart, max: int, from: real)
    ensures Counted(chain + [e], max) == After(Counted(chain, max), e, max)
    ensures CrashesIn(chain + [e], from) == CrashesIn(chain, from) + (if e.crash && InWindow(e, from) then 1 else 0)
    ensures Chain(chain + [e], max) <==>
      && Chain(chain, max)
      && (chain != [] ==> chain[|chain| - 1].recorded <= e.decided)
      && e.decided <= e.recorded
      && (e.crash ==> ShouldRestart(Counted(chain, max), max, e.decided).0)
  {
  }

  // ---------------------------------------------------------------- a new budget after a quiet hour

  /** Restart i of the chain is a crash restart let through although the counter was full: it begins a new budget. */
  predicate Renews(chain: seq<Restart>, i: nat, max: int) {
    0 < i < |chain| && chain[i].crash && Counted(chain[..i], max).count >= max
  }

  /** A budget is renewed only after an hour without any restart. */
  lemma RenewsAfterQuietHour(chain: seq<Restart>, i: nat, max: int)
    requires Chain(chain, max) && Renews(chain, i, max)
    ensures chain[i].decided - chain[i - 1].recorded >= HOUR
    decreases |chain|
  {
    var earlier := chain[..|chain| - 1];
    if i < |earlier| {
      assert earlier[..i] == chain[..i];
      RenewsAfterQuietHour(earlier, i, max);
    } else {
      LastIsRecorded(earlier, max);
    }
  }

  /** The restart that began the budget in force: the last renewal, or the first restart of all. */
  predicate Began(chain: seq<Restart>, i: nat, max: int) {
    && i < |chain|
    && (i == 0 || Renews(chain, i, max))
    && forall j :: i < j < |chain| ==> !Renews(chain, j, max)
  }

  /** What the counter counts, exactly: the restarts of any kind since the budget in force began. */
  lemma {:induction false} CountSinceRenewal(chain: seq<Restart>, i: nat, max: int)
    requires Chain(chain, max) && Began(chain, i, max)
    ensures Counted(chain, max).count == |chain| - i
    decreases |chain|
  {
    var earlier, e := chain[..|chain| - 1], chain[|chain| - 1];
    LastIsRecorded(earlier, max);
    if i < |earlier| {
      forall j | 0 <= j < |earlier|
        ensures Renews(earlier, j, max) <==> Renews(chain, j, max)
      {
        assert earlier[..j] == chain[..j];
      }
      CountSinceRenewal(earlier, i, max);
      assert !Renews(chain, |earlier|, max);
    }
  }

  /**
   After a quiet hour the budget is whole again: once a crash restart has been let through by a
   full counter, crashes are restarted at any time, whatever restarts follow, until there are
   max_restarts_per_hour of them.
   */
  lemma {:induction false} WholeAfterRenewal(
    earlier: seq<Restart>, e: Restart, more: seq<Restart>, max: int, now: real)
    requires Chain(earlier + [e] + more, max) && |more| + 1 < max
    requires earlier != [] && e.crash && Counted(earlier, max).count >= max
    ensures ShouldRestart(Counted(earlier, max), max, e.decided) == (true, Counter(0, None))
    ensures Counted(earlier + [e] + more, max).count == |more| + 1
    ensures ShouldRestart(Counted(earlier + [e] + more, max), max, now).0
    decreases |more|
  {
    var chain := earlier + [e] + more;
    if more == [] {
      assert chain == earlier + [e];
      Append(earlier, e, max, 0.0);
      LastIsRecorded(earlier, max);
    } else {
      var fewer, last := more[..|more| - 1], more[|more| - 1];
      assert chain == earlier + [e] + fewer + [last];
      Append(earlier + [e] + fewer, last, max, 0.0);
      WholeAfterRenewal(earlier, e, fewer, max, last.decided);
    }
  }

  // ---------------------------------------------------------------- restarts take time

  /** A monitor pass can come at this time: it has slept since it last restarted a crashed process. */
  predicate PassPossible(chain: seq<Restart>, now: real, interval: nat) {
    forall i :: 0 <= i < |chain| && chain[i].crash ==> chain[i].recorded + interval as real <= now
  }

  /**
   Restarts as the code can make them: each takes the pause of `_restart_exchange`, and crash
   restarts come from passes of the monitor, which sleeps `check_interval` seconds in between.
   */
  predicate Paced(chain: seq<Restart>, interval: nat) {
    forall i :: 0 <= i < |chain| ==>
      && chain[i].decided + PAUSE <= chain[i].recorded
      && (chain[i].crash ==> PassPossible(chain[..i], chain[i].decided, interval))
  }

  lemma PossibleAfterLast(chain: seq<Restart>, max: int, now: real, interval: nat)
    requires Chain(chain, max) && (chain == [] || chain[|chain| - 1].recorded + interval as real <= now)
    ensures PassPossible(chain, now, interval)
  {
    forall i | 0 <= i < |chain|
      ensures chain[i].recorded + interval as real <= now
    {
      Ordered(chain, max, i, |chain| - 1);
    }
  }

  lemma PacedAppend(chain: seq<Restart>, e: Restart, interval: nat)
    ensures Paced(chain + [e], interval) <==>
      && Paced(chain, interval)
      && e.decided + PAUSE <= e.recorded
      && (e.crash ==> PassPossible(chain, e.decided, interval))
  {
    var longer := chain + [e];
    assert longer[|chain|] == e && longer[..|chain|] == chain;
    forall i | 0 <= i < |chain|
      ensures longer[i] == chain[i] && longer[..i] == chain[..i]
    {
    }
    assert Paced(longer, interval) ==> forall i :: 0 <= i < |chain| ==> longer[i].decided + PAUSE <= longer[i].recorded;
  }

  /** The most crash restarts an hour has room for, whatever the budget. */
  function Room(interval: nat): (n: nat)
    ensures n >= 1
  {
    3599 / (interval + 1) + 1
  }

  function Ceiling(max: int, interval: nat): (n: nat)
    ensures n >= 1
  {
    if Max(1, max) <= Room(interval) then Max(1, max) else Room(interval)
  }

  lemma OneMore(n: nat, gap: nat)
    ensures (n + 1) * gap == n * gap + gap
  {
  }

  lemma Times(a: nat, b: nat, gap: nat)
    requires a <= b
    ensures a * gap <= b * gap
  {
  }

  lemma RoomFits(n: nat, interval: nat)
    requires n >= 1
    ensures (n - 1) * (interval + 1) < 3600 <==> n <= Room(interval)
  {
    var gap := interval + 1;
    var q := 3599 / gap;
    assert 3599 == q * gap + 3599 % gap;
    OneMore(q, gap);
    if n - 1 <= q {
      Times(n - 1, q, gap);
    } else {
      Times(q + 1, n - 1, gap);
    }
  }

  /** The last crash restart in the window is as far into it as the ones before it have pushed it. */
  lemma {:induction false} LastCrash(chain: seq<Restart>, from: real, interval: nat) returns (i: nat)
    requires Paced(chain, interval) && CrashesIn(chain, from) > 0
    ensures i < |chain| && chain[i].crash && InWindow(chain[i], from)
    ensures ((CrashesIn(chain, from) - 1) * (interval + 1)) as real <= chain[i].recorded - from
  {
    var earlier, e := chain[..|chain| - 1], chain[|chain| - 1];
    assert chain == earlier + [e];
    PacedAppend(earlier, e, interval);
    i := |chain| - 1;
    if CrashesIn(earlier, from) > 0 {
      var k := LastCrash(earlier, from, interval);
      if e.crash && InWindow(e, from) {
        OneMore(CrashesIn(earlier, from) - 1, interval + 1);
      } else {
        i := k;
      }
    }
  }

  lemma RoomIsBound(chain: seq<Restart>, from: real, interval: nat)
    requires Paced(chain, interval)
    ensures CrashesIn(chain, from) <= Room(interval)
  {
    if CrashesIn(chain, from) > 0 {
      var i := LastCrash(chain, from, interval);
      RoomFits(CrashesIn(chain, from), interval);
    }
  }

  /** A chain of n crash restarts, all in the window from `gap` on, the last of them at `last`. */
  predicate IsBurst(chain: seq<Restart>, n: nat, max: int, interval: nat, last: real) {
    && Chain(chain, max) && Paced(chain, interval)
    && CrashesIn(chain, interval as real + PAUSE) == Counted(chain, max).count == n
    && (chain == [] <==> n == 0)
    && (if n == 0 then last == 0.0 else chain[|chain| - 1].recorded == last)
  }

  lemma BurstGrows(chain: seq<Restart>, n: nat, max: int, interval: nat, last: real) returns (longer: seq<Restart>)
    requires IsBurst(chain, n, max, interval, last) && 0.0 <= last < HOUR && n < Max(1, max)
    ensures IsBurst(longer, n + 1, max, interval, last + interval as real + PAUSE)
  {
    var at := last + interval as real + PAUSE;
    var e := Restart(true, at - PAUSE, at);
    PossibleAfterLast(chain, max, at - PAUSE, interval);
    LastIsRecorded(chain, max);
    Append(chain, e, max, interval as real + PAUSE);
    PacedAppend(chain, e, interval);
    longer := chain + [e];
  }

  /** n crash restarts as fast as they can come. */
  lemma {:induction false} Burst(n: nat, max: int, interval: nat) returns (chain: seq<Restart>)
    requires n <= Ceiling(max, interval)
    ensures IsBurst(chain, n, max, interval, (n * (interval + 1)) as real)
  {
    if n == 0 {
      chain := [];
    } else {
      var earlier := Burst(n - 1, max, interval);
      OneMore(n - 1, interval + 1);
      RoomFits(n, interval);
      chain := BurstGrows(earlier, n - 1, max, interval, ((n - 1) * (interval + 1)) as real);
    }
  }

  /**
   The least bound there is. Whatever the setting and the check interval, an hour holds at most
   Ceiling(max, interval) crash restarts, and some chain reaches that many: a budget of zero or
   less still lets one through, and a budget above what an hour has room for is never reached.
   */
  lemma CeilingIsLeastBound(max: int, interval: nat) returns (reached: seq<Restart>, when: real)
    ensures forall chain, from :: Chain(chain, max) && Paced(chain, interval) ==>
      CrashesIn(chain, from) <= Ceiling(max, interval)
    ensures Chain(reached, max) && Paced(reached, interval)
    ensures CrashesIn(reached, when) == Ceiling(max, interval)
  {
    forall chain, from | Chain(chain, max) && Paced(chain, interval)
      ensures CrashesIn(chain, from) <= Ceiling(max, interval)
    {
      WindowBound(chain, max, from);
      RoomIsBound(chain, from, interval);
    }
    when := interval as real + PAUSE;
    reached := Burst(Ceiling(max, interval), max, interval);
  }

  /**
   When a crash is refused a restart: exactly when the counter has reached the budget and the
   last restart is less than an hour old. An exchange quiet for an hour is always restarted.
   */
  lemma RefusedIff(chain: seq<Restart>, max: int, now: real)
    requires Chain(chain, max)
    ensures !ShouldRestart(Counted(chain, max), max, now).0 <==>
      chain != [] && Counted(chain, max).count >= max && now - chain[|chain| - 1].recorded < HOUR
  {
  }

  /** Restarts recorded in the hour up to now, open at its beginning. */
  function Recent(chain: seq<Restart>, now: real): nat {
    if chain == [] then 0
    else
      var e := chain[|chain| - 1];
      Recent(chain[..|chain| - 1], now) + (if now - HOUR < e.recorded <= now then 1 else 0)
  }

  lemma {:induction false} NoneRecent(chain: seq<Restart>, max: int, now: real)
    requires Chain(chain, max) && (chain == [] || now - chain[|chain| - 1].recorded >= HOUR)
    ensures Recent(chain, now) == 0
  {
    if chain != [] {
      NoneRecent(chain[..|chain| - 1], max, now);
    }
  }

  /** The hour holds k restarts exactly when it reaches back to the k-th last one. */
  lemma {:induction false} RecentReaches(chain: seq<Restart>, max: int, now: real, k: nat)
    requires Chain(chain, max) && 1 <= k <= |chain| && chain[|chain| - 1].recorded <= now
    ensures Recent(chain, now) >= k <==> now - chain[|chain| - k].recorded < HOUR
  {
    var earlier := chain[..|chain| - 1];
    Ordered(chain, max, |chain| - k, |chain| - 1);
    if now - chain[|chain| - 1].recorded >= HOUR {
      NoneRecent(chain, max, now);
    } else if k > 1 {
      RecentReaches(earlier, max, now, k - 1);
    }
  }

  lemma {:induction false} RecentAtMostAll(chain: seq<Restart>, now: real)
    ensures Recent(chain, now) <= |chain|
  {
    if chain != [] {
      RecentAtMostAll(chain[..|chain| - 1], now);
    }
  }

  /** The counter has not been reset since the k-th last restart when that one is less than an hour before the last. */
  lemma {:induction false} CounterReaches(chain: seq<Restart>, max: int, k: nat)
    requires Chain(chain, max) && 1 <= k <= |chain|
    requires chain[|chain| - 1].recorded - chain[|chain| - k].recorded < HOUR
    ensures Counted(chain, max).count >= k
  {
    if k > 1 {
      var earlier := chain[..|chain| - 1];
      Ordered(earlier, max, |chain| - k, |earlier| - 1);
      CounterReaches(earlier, max, k - 1);
      LastIsRecorded(earlier, max);
    }
  }

  /**
   What the counter has to do with the restarts per hour it stands for. With the budget
   m = max(1, max_restarts_per_hour): the last hour holds m restarts if and only if a crash
   would be refused and the m-th last restart is less than an hour ago. So a full hour is
   always refused, and a refusal is backed by a full hour exactly in that case.
   */
  lemma RefusalBackedIff(chain: seq<Restart>, max: int, now: real)
    requires Chain(chain, max) && (chain == [] || chain[|chain| - 1].recorded <= now)
    ensures var m, refused := Max(1, max), !ShouldRestart(Counted(chain, max), max, now).0;
      && (refused ==> m <= |chain|)
      && (Recent(chain, now) >= m <==>
            refused && now - chain[|chain| - m].recorded < HOUR)
  {
    var m := Max(1, max);
    RefusedIff(chain, max, now);
    LastIsRecorded(chain, max);
    RecentAtMostAll(chain, now);
    if m <= |chain| {
      RecentReaches(chain, max, now, m);
      if now - chain[|chain| - m].recorded < HOUR {
        Ordered(chain, max, |chain| - m, |chain| - 1);
        CounterReaches(chain, max, m);
      }
    }
  }

  /** Restarts of one kind, all counted, with one of them recorded in the hour before the 1000 s mark after the last. */
  predicate IsTrickle(chain: seq<Restart>, max: int, crash: bool) {
    && Chain(chain, max)
    && Counted(chain, max).count == |chain|
    && (forall i :: 0 <= i < |chain| ==> chain[i].crash == crash)
    && (chain != [] ==> Recent(chain, chain[|chain| - 1].recorded + 1000.0) == 1)
  }

  lemma NextTrickle(chain: seq<Restart>, max: int, e: Restart)
    requires IsTrickle(chain, max, e.crash) && |chain| < Max(1, max)
    requires e.decided <= e.recorded
    requires chain != [] ==> chain[|chain| - 1].recorded + 2600.0 <= e.decided
    ensures IsTrickle(chain + [e], max, e.crash)
  {
    var longer := chain + [e];
    LastIsRecorded(chain, max);
    Append(chain, e, max, 0.0);
    NoneRecent(chain, max, e.recorded + 1000.0);
    assert longer[..|chain|] == chain;
  }

  /** n restarts, one every 3000 seconds; they may follow crashes if the monitor looks that often. */
  lemma {:induction false} Trickle(n: nat, max: int, crash: bool, interval: nat) returns (chain: seq<Restart>)
    requires n <= Max(1, max) && (crash ==> interval <= 1000)
    ensures IsTrickle(chain, max, crash) && Paced(chain, interval) && |chain| == n
  {
    if n == 0 {
      chain := [];
    } else {
      var earlier := Trickle(n - 1, max, crash, interval);
      var last := if earlier == [] then PAUSE else earlier[n - 2].recorded + 3000.0;
      var e := Restart(crash, last - PAUSE, last);
      NextTrickle(earlier, max, e);
      if crash {
        PossibleAfterLast(earlier, max, e.decided, interval);
      }
      PacedAppend(earlier, e, interval);
      chain := earlier + [e];
    }
  }

  /**
   With any budget above one, and any check interval, a crash can be refused although the last
   hour holds a single restart; with a budget of one or less, RefusalBackedIff says that it
   cannot.
   */
  lemma RefusalUnderBudget(max: int, interval: nat) returns (chain: seq<Restart>, now: real)
    requires max >= 2
    ensures Chain(chain, max) && Paced(chain, interval) && PassPossible(chain, now, interval)
    ensures !ShouldRestart(Counted(chain, max), max, now).0
    ensures chain != [] && chain[|chain| - 1].recorded <= now && Recent(chain, now) == 1
    ensures forall i :: 0 <= i < |chain| ==> (chain[i].crash <==> interval <= 1000)
  {
    chain := Trickle(max, max, interval <= 1000, interval);
    now := chain[|chain| - 1].recorded + 1000.0;
    LastIsRecorded(chain, max);
    if interval <= 1000 {
      PossibleAfterLast(chain, max, now, interval);
    }
  }
}
