/** The sliding-window rate limiter: an in-memory list of admission times, the same window
    kept as a Redis sorted set, and the fallback from the second to the first. Times are
    integer microseconds. */
module RateLimit {

  const SECOND := 1_000_000

  /** `max` admissions in a window of `window` seconds. */
  datatype Limit = Limit(max: nat, window: nat)
  {
    function Span(): nat { window * 1_000_000 }
  }

  datatype Decision = Allowed | Refused(retryAfter: int)

  // ---------------------------------------------------------------- the memory limiter

  function Trim(bucket: seq<int>, start: int): seq<int> {
    if bucket == [] then []
    else if bucket[0] > start then [bucket[0]] + Trim(bucket[1..], start)
    else Trim(bucket[1..], start)
  }

  function RetryAfter(limit: Limit, oldest: int, now: int): int {
    var left := oldest + limit.Span() - now;
    if left < 2_000_000 then 1 else left / 1_000_000
  }

  /** One request against the in-memory bucket. */
  function Check(limit: Limit, bucket: seq<int>, now: int): (seq<int>, Decision) {
    var kept := Trim(bucket, now - limit.Span());
    if |kept| >= limit.max then
      (kept, Refused(RetryAfter(limit, if kept != [] then kept[0] else now, now)))
    else (kept + [now], Allowed)
  }

  // ---------------------------------------------------------------- the Redis limiter

  /** A sorted set whose members are their own scores, and when the key may expire. */
  datatype ZSet = ZSet(members: seq<int>, expireAt: int)

  const NO_ZSET := ZSet([], 0)

  /** ZADD: a member that is already there is not stored twice. */
  function ZAdd(members: seq<int>, t: int): seq<int> {
    if members == [] || t < members[0] then [t] + members
    else if t == members[0] then members
    else [members[0]] + ZAdd(members[1..], t)
  }

  /** ZREMRANGEBYSCORE from 0. */
  function ZRemUpTo(members: seq<int>, last: int): seq<int> {
    if members == [] then []
    else if 0 <= members[0] <= last then ZRemUpTo(members[1..], last)
    else [members[0]] + ZRemUpTo(members[1..], last)
  }

  /** What the trimming command leaves; a key past its expiry may already be gone. */
  function Live(limit: Limit, z: ZSet, now: int, expired: bool): seq<int> {
    if expired && z.expireAt <= now then [] else ZRemUpTo(z.members, now - limit.Span())
  }

  /** One request against the sorted set, all commands succeeding. */
  function CheckRedis(limit: Limit, z: ZSet, now: int, expired: bool): (ZSet, Decision) {
    var live := Live(limit, z, now, expired);
    if |live| >= limit.max then
      (z.(members := live),
       Refused(if live != [] then RetryAfter(limit, live[0], now) else limit.window))
    else (ZSet(ZAdd(live, now), now + limit.Span() + SECOND), Allowed)
  }

  /** An admission renews the key's life to a second more than the window, a refusal does not, and a key
      that has expired may count for nothing. */
  lemma KeyLifetime(limit: Limit, z: ZSet, now: int, expired: bool)
    ensures var (z', d) := CheckRedis(limit, z, now, expired);
      z'.expireAt == if d.Allowed? then now + (limit.window + 1) * 1_000_000 else z.expireAt
    ensures z.expireAt <= now && limit.max > 0 ==> CheckRedis(limit, z, now, true).1.Allowed?
  {
  }

  // ---------------------------------------------------------------- runs of the memory limiter

  ghost predicate AllBelow(times: seq<int>, now: int) {
    forall i :: 0 <= i < |times| ==> times[i] < now
  }

  ghost predicate NonDecreasing(times: seq<int>) {
    forall i, j :: 0 <= i < j < |times| ==> times[i] <= times[j]
  }

  ghost predicate Increasing(times: seq<int>) {
    forall i, j :: 0 <= i < j < |times| ==> times[i] < times[j]
  }

  /** The bucket and all admission times after a series of requests. */
  function MemoryRun(limit: Limit, times: seq<int>): (seq<int>, seq<int>) {
    if times == [] then ([], [])
    else
      var n := |times| - 1;
      var (bucket, admitted) := MemoryRun(limit, times[..n]);
      var (bucket', d) := Check(limit, bucket, times[n]);
      (bucket', if d.Allowed? then admitted + [times[n]] else admitted)
  }

  /** The bucket is the recent end of the admissions, everything before it has left the
      window, and any `max` + 1 consecutive admissions span at least one window. */
  ghost predicate MemoryInv(limit: Limit, bucket: seq<int>, admitted: seq<int>, now: int) {
    && NonDecreasing(admitted)
    && (forall i :: 0 <= i < |admitted| ==> admitted[i] <= now)
    && |bucket| <= |admitted| && bucket == admitted[|admitted| - |bucket|..]
    && |bucket| <= limit.max
    && (forall i :: 0 <= i < |admitted| - |bucket| ==> admitted[i] + limit.Span() <= now)
    && Spaced(limit, admitted)
  }

  ghost predicate Spaced(limit: Limit, admitted: seq<int>) {
    forall i, j :: 0 <= i && i + limit.max <= j < |admitted| ==>
      admitted[i] + limit.Span() <= admitted[j]
  }

  lemma {:induction false} TrimNothing(bucket: seq<int>, start: int)
    requires forall i :: 0 <= i < |bucket| ==> bucket[i] > start
    ensures Trim(bucket, start) == bucket
    decreases |bucket|
  {
    if bucket == [] {
    } else {
      TrimNothing(bucket[1..], start);
    }
  }

  lemma {:induction false} TrimIsSuffix(bucket: seq<int>, start: int)
    requires NonDecreasing(bucket)
    ensures var kept := Trim(bucket, start);
      && |kept| <= |bucket| && kept == bucket[|bucket| - |kept|..]
      && (forall i :: 0 <= i < |bucket| - |kept| ==> bucket[i] <= start)
      && (forall i :: 0 <= i < |kept| ==> kept[i] > start)
    decreases |bucket|
  {
    if bucket == [] {
    } else {
      if bucket[0] > start {
        TrimNothing(bucket, start);
      } else {
        TrimIsSuffix(bucket[1..], start);
      }
    }
  }

  lemma EndOfEnd(all: seq<int>, middle: seq<int>, end: seq<int>)
    requires |end| <= |middle| <= |all|
    requires middle == all[|all| - |middle|..] && end == middle[|middle| - |end|..]
    ensures end == all[|all| - |end|..]
    ensures forall i :: |all| - |middle| <= i < |all| ==> all[i] == middle[i - (|all| - |middle|)]
  {
  }

  /** Trimming the bucket keeps it the recent end of the admissions. */
  lemma TrimmedEnd(limit: Limit, bucket: seq<int>, admitted: seq<int>, last: int, now: int)
    requires MemoryInv(limit, bucket, admitted, last) && last <= now
    ensures var kept := Trim(bucket, now - limit.Span());
      var gone := |admitted| - |kept|;
      && 0 <= gone && |kept| <= |bucket| && kept == admitted[gone..]
      && forall i :: 0 <= i < gone ==> admitted[i] + limit.Span() <= now
  {
    var start := now - limit.Span();
    var kept := Trim(bucket, start);
    TailInOrder(admitted, bucket);
    TrimIsSuffix(bucket, start);
    EndOfEnd(admitted, bucket, kept);
  }

  lemma TailInOrder(all: seq<int>, end: seq<int>)
    requires NonDecreasing(all) && |end| <= |all| && end == all[|all| - |end|..]
    ensures NonDecreasing(end)
  {
  }

  lemma SpacedExtends(limit: Limit, admitted: seq<int>, kept: nat, now: int)
    requires Spaced(limit, admitted) && kept < limit.max && kept <= |admitted|
    requires forall i :: 0 <= i < |admitted| - kept ==> admitted[i] + limit.Span() <= now
    ensures Spaced(limit, admitted + [now])
  {
  }

  lemma CheckKeepsInv(limit: Limit, bucket: seq<int>, admitted: seq<int>, last: int, now: int)
    requires MemoryInv(limit, bucket, admitted, last) && last <= now
    ensures var (bucket', d) := Check(limit, bucket, now);
      MemoryInv(limit, bucket', if d.Allowed? then admitted + [now] else admitted, now)
  {
    var kept := Trim(bucket, now - limit.Span());
    TrimmedEnd(limit, bucket, admitted, last, now);
    assert MemoryInv(limit, kept, admitted, now);
    if |kept| < limit.max {
      AdmissionKeepsInv(limit, kept, admitted, now);
    }
  }

  lemma AdmissionKeepsInv(limit: Limit, kept: seq<int>, admitted: seq<int>, now: int)
    requires MemoryInv(limit, kept, admitted, now) && |kept| < limit.max
    ensures MemoryInv(limit, kept + [now], admitted + [now], now)
  {
    SpacedExtends(limit, admitted, |kept|, now);
    var bucket', admitted' := kept + [now], admitted + [now];
    var gone := |admitted| - |kept|;
    assert bucket' == admitted'[gone..];
    assert forall i :: 0 <= i < gone ==> admitted'[i] == admitted[i];
    assert NonDecreasing(admitted');
  }

  lemma {:induction false} MemoryRunInv(limit: Limit, times: seq<int>, last: int)
    requires NonDecreasing(times) && forall i :: 0 <= i < |times| ==> times[i] <= last
    ensures MemoryInv(limit, MemoryRun(limit, times).0, MemoryRun(limit, times).1, last)
    decreases |times|
  {
    if times == [] {
    } else {
      var n := |times| - 1;
      MemoryRunInv(limit, times[..n], times[n]);
      var (bucket, admitted) := MemoryRun(limit, times[..n]);
      CheckKeepsInv(limit, bucket, admitted, times[n], times[n]);
      InvLasts(limit, MemoryRun(limit, times).0, MemoryRun(limit, times).1, times[n], last);
    }
  }

  lemma InvLasts(limit: Limit, bucket: seq<int>, admitted: seq<int>, now: int, later: int)
    requires MemoryInv(limit, bucket, admitted, now) && now <= later
    ensures MemoryInv(limit, bucket, admitted, later)
  {
  }

  /** How many admissions fall into the half-open window that starts at `from`. */
  function InWindow(limit: Limit, admitted: seq<int>, from: int): nat {
    if admitted == [] then 0
    else
      var n := |admitted| - 1;
      InWindow(limit, admitted[..n], from)
      + if from <= admitted[n] < from + limit.Span() then 1 else 0
  }

  lemma {:induction false} InWindowBounds(limit: Limit, admitted: seq<int>, from: int, k: nat)
    requires k <= |admitted| && forall i :: 0 <= i < k ==> admitted[i] < from
    ensures InWindow(limit, admitted, from) <= |admitted| - k
    decreases |admitted|
  {
    if admitted == [] {
    } else {
      var n := |admitted| - 1;
      InWindowBounds(limit, admitted[..n], from, if k <= n then k else n);
    }
  }

  lemma {:induction false} SpacedWindow(limit: Limit, admitted: seq<int>, from: int)
    requires NonDecreasing(admitted) && Spaced(limit, admitted)
    ensures InWindow(limit, admitted, from) <= limit.max
    decreases |admitted|
  {
    if admitted == [] {
    } else {
      var n := |admitted| - 1;
      if from <= admitted[n] < from + limit.Span() {
        var k := if |admitted| < limit.max then 0 else |admitted| - limit.max;
        InWindowBounds(limit, admitted, from, k);
      } else {
        SpacedWindow(limit, admitted[..n], from);
      }
    }
  }

  /** Whatever the requests, the memory limiter admits at most `max` of them in any window. */
  lemma MemoryWindow(limit: Limit, times: seq<int>, from: int)
    requires NonDecreasing(times)
    ensures InWindow(limit, MemoryRun(limit, times).1, from) <= limit.max
  {
    if times != [] {
      MemoryRunInv(limit, times, times[|times| - 1]);
      SpacedWindow(limit, MemoryRun(limit, times).1, from);
    }
  }

  lemma {:induction false} InWindowAll(limit: Limit, times: seq<int>, from: int)
    requires forall i :: 0 <= i < |times| ==> from <= times[i] < from + limit.Span()
    ensures InWindow(limit, times, from) == |times|
    decreases |times|
  {
    if times == [] {
    } else {
      InWindowAll(limit, times[..|times| - 1], from);
    }
  }

  lemma WindowIsEnd(limit: Limit, gone: seq<int>, kept: seq<int>, from: int)
    requires forall i :: 0 <= i < |gone| ==> gone[i] < from
    requires forall i :: 0 <= i < |kept| ==> from <= kept[i] < from + limit.Span()
    ensures InWindow(limit, gone + kept, from) == |kept|
  {
    InWindowConcat(limit, gone, kept, from);
    InWindowBounds(limit, gone, from, |gone|);
    InWindowAll(limit, kept, from);
  }

  lemma RecentAreKept(limit: Limit, bucket: seq<int>, admitted: seq<int>, now: int, kept: seq<int>)
    requires MemoryInv(limit, bucket, admitted, now) && kept == Trim(bucket, now - limit.Span())
    ensures InWindow(limit, admitted, now - limit.Span() + 1) == |kept|
  {
    TrimmedEnd(limit, bucket, admitted, now, now);
    TrimKeepsRecent(bucket, now - limit.Span());
    WindowIsTail(limit, admitted, kept, now);
  }

  lemma WindowIsTail(limit: Limit, admitted: seq<int>, kept: seq<int>, now: int)
    requires |kept| <= |admitted| && kept == admitted[|admitted| - |kept|..]
    requires forall i :: 0 <= i < |admitted| ==> admitted[i] <= now
    requires forall i :: 0 <= i < |admitted| - |kept| ==> admitted[i] + limit.Span() <= now
    requires forall i :: 0 <= i < |kept| ==> kept[i] > now - limit.Span()
    ensures InWindow(limit, admitted, now - limit.Span() + 1) == |kept|
  {
    var gone := admitted[..|admitted| - |kept|];
    assert admitted == gone + kept;
    forall i | 0 <= i < |kept| ensures kept[i] <= now { assert kept[i] == admitted[|gone| + i]; }
    WindowIsEnd(limit, gone, kept, now - limit.Span() + 1);
  }

  /** And it refuses none without need: a request is admitted if and only if fewer than `max` were
      admitted in the window that ends with it. */
  lemma AdmittedIff(limit: Limit, times: seq<int>, now: int)
    requires NonDecreasing(times) && forall i :: 0 <= i < |times| ==> times[i] <= now
    ensures var (bucket, admitted) := MemoryRun(limit, times);
      Check(limit, bucket, now).1.Allowed? <==> InWindow(limit, admitted, now - limit.Span() + 1) < limit.max
  {
    MemoryRunInv(limit, times, now);
    var (bucket, admitted) := MemoryRun(limit, times);
    CheckedByWindow(limit, bucket, admitted, now);
  }

  lemma CheckedByWindow(limit: Limit, bucket: seq<int>, admitted: seq<int>, now: int)
    requires MemoryInv(limit, bucket, admitted, now)
    ensures Check(limit, bucket, now).1.Allowed?
       <==> InWindow(limit, admitted, now - limit.Span() + 1) < limit.max
  {
    RecentAreKept(limit, bucket, admitted, now, Trim(bucket, now - limit.Span()));
  }

  lemma {:induction false} TrimKeepsRecent(bucket: seq<int>, start: int)
    ensures forall i :: 0 <= i < |Trim(bucket, start)| ==> Trim(bucket, start)[i] > start
    decreases |bucket|
  {
    if bucket != [] { TrimKeepsRecent(bucket[1..], start); }
  }

  // ---------------------------------------------------------------- clocks that step back

  /** How often a series of readings steps back. */
  function StepsBack(times: seq<int>): nat {
    if times == [] then 0
    else
      var n := |times| - 1;
      StepsBack(times[..n]) + if n > 0 && times[n] < times[n - 1] then 1 else 0
  }

  /** Of the admissions in a window, those since the clock last stepped back are still in the
      bucket until the clock leaves the window; the earlier ones are bounded by the steps back. */
  ghost predicate RunInv(limit: Limit, bucket: seq<int>, admitted: seq<int>, last: int, from: int,
                         earlier: nat)
  {
    && |bucket| <= limit.max
    && InWindow(limit, admitted, from) <= earlier + limit.max
    && (last < from + limit.Span() ==>
          InWindow(limit, admitted, from) <= earlier + InWindow(limit, bucket, from))
  }

  lemma {:induction false} TrimKeepsWindow(limit: Limit, bucket: seq<int>, start: int, from: int)
    ensures |Trim(bucket, start)| <= |bucket|
    ensures start < from ==> InWindow(limit, Trim(bucket, start), from) == InWindow(limit, bucket, from)
    decreases |bucket|
  {
    if bucket == [] {
    } else {
      TrimKeepsWindow(limit, bucket[1..], start, from);
      assert bucket == [bucket[0]] + bucket[1..];
      InWindowConcat(limit, [bucket[0]], bucket[1..], from);
      InWindowConcat(limit, [bucket[0]], Trim(bucket[1..], start), from);
      InWindowOne(limit, bucket[0], from);
    }
  }

  lemma {:induction false} InWindowConcat(limit: Limit, a: seq<int>, b: seq<int>, from: int)
    ensures InWindow(limit, a + b, from) == InWindow(limit, a, from) + InWindow(limit, b, from)
    decreases |b|
  {
    if b == [] {
      assert a + b == a;
    } else {
      var n := |b| - 1;
      assert (a + b)[..|a + b| - 1] == a + b[..n];
      InWindowConcat(limit, a, b[..n], from);
    }
  }

  lemma InWindowOne(limit: Limit, t: int, from: int)
    ensures InWindow(limit, [t], from) == if from <= t < from + limit.Span() then 1 else 0
  {
    assert [t][..0] == [];
  }

  lemma CheckKeepsRunInv(limit: Limit, bucket: seq<int>, admitted: seq<int>, last: int, now: int,
                         from: int, earlier: nat)
    requires RunInv(limit, bucket, admitted, last, from, earlier) && last <= now
    ensures var (bucket', d) := Check(limit, bucket, now);
      RunInv(limit, bucket', if d.Allowed? then admitted + [now] else admitted, now, from, earlier)
  {
    var kept := Trim(bucket, now - limit.Span());
    TrimKeepsWindow(limit, bucket, now - limit.Span(), from);
    InWindowConcat(limit, kept, [now], from);
    InWindowConcat(limit, admitted, [now], from);
    InWindowOne(limit, now, from);
    InWindowBounds(limit, kept, from, 0);
  }

  function LastReading(times: seq<int>, default: int): int {
    if times == [] then default else times[|times| - 1]
  }

  /** `max` for each step back. */
  function Earlier(limit: Limit, times: seq<int>): nat {
    if times == [] then 0
    else
      var n := |times| - 1;
      Earlier(limit, times[..n]) + if n > 0 && times[n] < times[n - 1] then limit.max else 0
  }

  lemma {:induction false} EarlierClosedForm(limit: Limit, times: seq<int>)
    ensures Earlier(limit, times) == limit.max * StepsBack(times)
    decreases |times|
  {
    if times == [] {
    } else {
      var k := StepsBack(times[..|times| - 1]);
      EarlierClosedForm(limit, times[..|times| - 1]);
      assert limit.max * (k + 1) == limit.max * k + limit.max;
    }
  }

  lemma StartOver(limit: Limit, bucket: seq<int>, admitted: seq<int>, last: int, now: int, from: int,
                  earlier: nat)
    requires RunInv(limit, bucket, admitted, last, from, earlier)
    ensures RunInv(limit, bucket, admitted, now, from, earlier + limit.max)
  {
  }

  lemma {:induction false} MemoryRunAnyClock(limit: Limit, times: seq<int>, from: int)
    ensures var (bucket, admitted) := MemoryRun(limit, times);
      RunInv(limit, bucket, admitted, LastReading(times, from), from, Earlier(limit, times))
    decreases |times|
  {
    if times == [] {
    } else {
      var n := |times| - 1;
      MemoryRunAnyClock(limit, times[..n], from);
      var (bucket, admitted) := MemoryRun(limit, times[..n]);
      var (last, now, earlier) := (LastReading(times[..n], from), times[n], Earlier(limit, times[..n]));
      if n == 0 {
        CheckKeepsRunInv(limit, [], [], now, now, from, 0);
      } else if now < last {
        StartOver(limit, bucket, admitted, last, now, from, earlier);
        CheckKeepsRunInv(limit, bucket, admitted, now, now, from, earlier + limit.max);
      } else {
        CheckKeepsRunInv(limit, bucket, admitted, last, now, from, earlier);
      }
    }
  }

  /** Whatever the clock does, the memory limiter admits at most `max` requests in any window, and
      `max` more for each time the clock stepped back. */
  lemma MemoryWindowAnyClock(limit: Limit, times: seq<int>, from: int)
    ensures InWindow(limit, MemoryRun(limit, times).1, from) <= limit.max + limit.max * StepsBack(times)
  {
    MemoryRunAnyClock(limit, times, from);
    EarlierClosedForm(limit, times);
  }

  // ---------------------------------------------------------------- Redis, one check at a time

  lemma {:induction false} ZRemIsTrim(members: seq<int>, last: int)
    requires forall i :: 0 <= i < |members| ==> members[i] >= 0
    ensures ZRemUpTo(members, last) == Trim(members, last)
    decreases |members|
  {
    if members == [] {
    } else {
      ZRemIsTrim(members[1..], last);
    }
  }

  lemma {:induction false} TrimAll(bucket: seq<int>, start: int)
    requires forall i :: 0 <= i < |bucket| ==> bucket[i] <= start
    ensures Trim(bucket, start) == []
    decreases |bucket|
  {
    if bucket == [] {
    } else {
      TrimAll(bucket[1..], start);
    }
  }

  lemma {:induction false} ZAddAppends(members: seq<int>, t: int)
    requires forall i :: 0 <= i < |members| ==> members[i] < t
    ensures ZAdd(members, t) == members + [t]
    decreases |members|
  {
    if members == [] {
    } else {
      ZAddAppends(members[1..], t);
    }
  }

  /** A non-decreasing series without its repetitions: what a sorted set keeps of it. */
  function Distinct(times: seq<int>): seq<int> {
    if |times| <= 1 then times
    else if times[0] == times[1] then Distinct(times[1..])
    else [times[0]] + Distinct(times[1..])
  }

  ghost predicate Repeats(times: seq<int>) {
    exists i, j :: 0 <= i < j < |times| && times[i] == times[j]
  }

  lemma RepeatsAtFront(times: seq<int>)
    requires NonDecreasing(times) && |times| >= 2
    ensures Repeats(times) <==> times[0] == times[1] || Repeats(times[1..])
  {
    var rest := times[1..];
    forall i, j | 0 <= i < j < |rest| && rest[i] == rest[j] ensures Repeats(times) {
      assert times[i + 1] == times[j + 1];
    }
    forall i, j | 0 <= i < j < |times| && times[i] == times[j]
      ensures times[0] == times[1] || Repeats(rest)
    {
      if i > 0 { assert rest[i - 1] == rest[j - 1]; }
    }
  }

  lemma {:induction false} DistinctShape(times: seq<int>)
    requires NonDecreasing(times)
    ensures var d := Distinct(times);
      && |d| <= |times| && (times != [] ==> d != [] && d[0] == times[0])
      && (|d| == |times| <==> !Repeats(times))
    decreases |times|
  {
    if |times| <= 1 {
    } else {
      RepeatsAtFront(times);
      DistinctShape(times[1..]);
    }
  }

  lemma {:induction false} DistinctWithin(times: seq<int>)
    ensures forall i :: 0 <= i < |Distinct(times)| ==> Distinct(times)[i] in times
    decreases |times|
  {
    if |times| <= 1 {
    } else {
      DistinctWithin(times[1..]);
    }
  }

  lemma {:induction false} TrimDistinct(times: seq<int>, start: int)
    requires NonDecreasing(times)
    ensures Trim(Distinct(times), start) == Distinct(Trim(times, start))
    decreases |times|
  {
    if |times| <= 1 {
    } else if times[0] > start {
      DistinctWithin(times);
      TrimNothing(times, start);
      TrimNothing(Distinct(times), start);
    } else {
      TrimDistinct(times[1..], start);
      if times[0] != times[1] {
        assert Distinct(times)[1..] == Distinct(times[1..]);
      }
    }
  }

  lemma ZAddBehind(x: int, members: seq<int>, t: int)
    requires x < t
    ensures ZAdd([x] + members, t) == [x] + ZAdd(members, t)
  {
    assert ([x] + members)[1..] == members;
  }

  lemma DistinctFirst(x: int, times: seq<int>)
    requires times != []
    ensures Distinct([x] + times) == if x == times[0] then Distinct(times) else [x] + Distinct(times)
  {
    assert ([x] + times)[1..] == times;
  }

  lemma {:induction false} ZAddDistinct(times: seq<int>, t: int)
    requires NonDecreasing(times) && forall i :: 0 <= i < |times| ==> times[i] <= t
    ensures ZAdd(Distinct(times), t) == Distinct(times + [t])
    decreases |times|
  {
    if times == [] {
    } else if |times| == 1 {
      assert times == [times[0]] && times[1..] == [];
      DistinctFirst(times[0], [t]);
      if times[0] < t { ZAddBehind(times[0], [], t); }
    } else {
      var (x, rest) := (times[0], times[1..]);
      assert times == [x] + rest && times + [t] == [x] + (rest + [t]);
      ZAddDistinct(rest, t);
      DistinctFirst(x, rest);
      DistinctFirst(x, rest + [t]);
      if x != rest[0] { ZAddBehind(x, Distinct(rest), t); }
    }
  }

  /** The decisions of the two limiters over a series of requests. */
  function MemoryDecisions(limit: Limit, times: seq<int>): seq<Decision> {
    if times == [] then []
    else
      var n := |times| - 1;
      MemoryDecisions(limit, times[..n])
      + [Check(limit, MemoryRun(limit, times[..n]).0, times[n]).1]
  }

  function RedisState(limit: Limit, times: seq<int>, expired: seq<bool>): ZSet
    requires |expired| == |times|
  {
    if times == [] then NO_ZSET
    else
      var n := |times| - 1;
      CheckRedis(limit, RedisState(limit, times[..n], expired[..n]), times[n], expired[n]).0
  }

  function RedisDecisions(limit: Limit, times: seq<int>, expired: seq<bool>): seq<Decision>
    requires |expired| == |times|
  {
    if times == [] then []
    else
      var n := |times| - 1;
      RedisDecisions(limit, times[..n], expired[..n])
      + [CheckRedis(limit, RedisState(limit, times[..n], expired[..n]), times[n], expired[n]).1]
  }

  /** The sorted set holds the distinct readings of the bucket, and the key outlives them. */
  ghost predicate Mirrors(limit: Limit, z: ZSet, bucket: seq<int>, now: int) {
    && NonDecreasing(bucket) && z.members == Distinct(bucket)
    && (forall i :: 0 <= i < |bucket| ==>
          0 <= bucket[i] <= now && bucket[i] + limit.Span() + SECOND <= z.expireAt)
  }

  /** The memory form refuses on readings that the sorted set has merged. */
  ghost predicate FullWithRepeat(limit: Limit, kept: seq<int>) {
    |kept| >= limit.max && Repeats(kept)
  }

  lemma LiveMirrors(limit: Limit, z: ZSet, bucket: seq<int>, last: int, now: int, expired: bool)
    requires Mirrors(limit, z, bucket, last) && last <= now
    ensures Live(limit, z, now, expired) == Distinct(Trim(bucket, now - limit.Span()))
  {
    var start := now - limit.Span();
    TrimDistinct(bucket, start);
    DistinctWithin(bucket);
    ZRemIsTrim(z.members, start);
    if expired && z.expireAt <= now { TrimAll(bucket, start); }
  }

  /** One request: the decisions, retry time included, agree unless the bucket is full and holds
      a repeated reading; then Redis admits what the memory form refuses. */
  lemma RedisMirrorsMemory(limit: Limit, z: ZSet, bucket: seq<int>, last: int, now: int, expired: bool)
    requires Mirrors(limit, z, bucket, last) && 0 < limit.max && |bucket| <= limit.max
    requires 0 <= now && last <= now
    ensures CheckRedis(limit, z, now, expired).1 == Check(limit, bucket, now).1
       <==> !FullWithRepeat(limit, Trim(bucket, now - limit.Span()))
  {
    var kept := Trim(bucket, now - limit.Span());
    LiveMirrors(limit, z, bucket, last, now, expired);
    assert |kept| <= |bucket| && NonDecreasing(kept) by { TrimTwice(bucket, now - limit.Span()); }
    DistinctDecides(limit, kept, now);
  }

  /** What the two forms decide on the readings of one window. */
  lemma DistinctDecides(limit: Limit, kept: seq<int>, now: int)
    requires 0 < limit.max && |kept| <= limit.max && NonDecreasing(kept)
    ensures |Distinct(kept)| < limit.max <==> |kept| < limit.max || FullWithRepeat(limit, kept)
    ensures kept != [] ==> Distinct(kept) != [] && Distinct(kept)[0] == kept[0]
    ensures |Distinct(kept)| <= |kept|
  {
    DistinctShape(kept);
  }

  lemma MirrorsKept(limit: Limit, z: ZSet, bucket: seq<int>, last: int, now: int, expired: bool)
    requires Mirrors(limit, z, bucket, last) && 0 < limit.max && 0 <= now && last <= now
    requires CheckRedis(limit, z, now, expired).1 == Check(limit, bucket, now).1
    ensures Mirrors(limit, CheckRedis(limit, z, now, expired).0, Check(limit, bucket, now).0, now)
  {
    var start := now - limit.Span();
    var kept := Trim(bucket, start);
    LiveMirrors(limit, z, bucket, last, now, expired);
    KeptMirrors(limit, z, bucket, last, now);
    if Check(limit, bucket, now).1.Allowed? {
      AddMirrors(limit, z.(members := Distinct(kept)), kept, now);
    }
  }

  lemma KeptMirrors(limit: Limit, z: ZSet, bucket: seq<int>, last: int, now: int)
    requires Mirrors(limit, z, bucket, last) && last <= now
    ensures var kept := Trim(bucket, now - limit.Span());
      Mirrors(limit, z.(members := Distinct(kept)), kept, now)
  {
    TrimTwice(bucket, now - limit.Span());
    KeptInBucket(bucket, now - limit.Span());
  }

  lemma AddMirrors(limit: Limit, z: ZSet, kept: seq<int>, now: int)
    requires Mirrors(limit, z, kept, now) && 0 <= now
    ensures Mirrors(limit, ZSet(ZAdd(z.members, now), now + limit.Span() + SECOND), kept + [now], now)
  {
    ZAddDistinct(kept, now);
  }

  lemma KeptInBucket(bucket: seq<int>, start: int)
    requires NonDecreasing(bucket)
    ensures forall i :: 0 <= i < |Trim(bucket, start)| ==> Trim(bucket, start)[i] in bucket
  {
    TrimIsSuffix(bucket, start);
  }

  ghost predicate Clock(times: seq<int>) {
    NonDecreasing(times) && forall i :: 0 <= i < |times| ==> 0 <= times[i]
  }

  /** The bucket that the n-th request of a series is decided on. */
  function BucketAt(limit: Limit, times: seq<int>, n: nat): seq<int>
    requires n < |times|
  {
    Trim(MemoryRun(limit, times[..n]).0, times[n] - limit.Span())
  }

  /** The request at `now` meets a full bucket that holds a repeat. */
  ghost predicate MeetsRepeat(limit: Limit, bucket: seq<int>, now: int) {
    FullWithRepeat(limit, Trim(bucket, now - limit.Span()))
  }

  ghost predicate NoneFullWithRepeat(limit: Limit, times: seq<int>)
    decreases |times|
  {
    times == [] ||
    var n := |times| - 1;
    NoneFullWithRepeat(limit, times[..n]) && !MeetsRepeat(limit, MemoryRun(limit, times[..n]).0, times[n])
  }

  lemma {:induction false} NoneMeansNone(limit: Limit, times: seq<int>)
    ensures NoneFullWithRepeat(limit, times)
       <==> forall n: nat :: n < |times| ==> !FullWithRepeat(limit, BucketAt(limit, times, n))
    decreases |times|
  {
    if times == [] {
    } else {
      var last := |times| - 1;
      NoneMeansNone(limit, times[..last]);
      forall n: nat | n < last ensures BucketAt(limit, times[..last], n) == BucketAt(limit, times, n) {
        SameBucket(limit, times, n);
      }
      assert MeetsRepeat(limit, MemoryRun(limit, times[..last]).0, times[last])
        <==> FullWithRepeat(limit, BucketAt(limit, times, last));
    }
  }

  lemma SameBucket(limit: Limit, times: seq<int>, n: nat)
    requires n < |times| - 1
    ensures BucketAt(limit, times[..|times| - 1], n) == BucketAt(limit, times, n)
  {
    assert times[..|times| - 1][..n] == times[..n];
  }

  /** The clock's readings, told one after the other. */
  predicate Ticks(times: seq<int>)
    decreases |times|
  {
    times == [] ||
    var n := |times| - 1;
    Ticks(times[..n]) && 0 <= times[n] && LastReading(times[..n], 0) <= times[n]
  }

  lemma {:induction false} ClockTicks(times: seq<int>)
    requires Clock(times)
    ensures Ticks(times)
    decreases |times|
  {
    if times == [] {
    } else {
      ClockTicks(times[..|times| - 1]);
    }
  }

  /** Two series of decisions and the states they lead to. */
  datatype Sides = Sides(z: ZSet, bucket: seq<int>, redis: seq<Decision>, memory: seq<Decision>)

  const NO_SIDES := Sides(NO_ZSET, [], [], [])

  /** Both sides decide one more request. */
  function NextSides(limit: Limit, s: Sides, now: int, expired: bool): Sides {
    var (x, y) := (CheckRedis(limit, s.z, now, expired), Check(limit, s.bucket, now));
    Sides(x.0, y.0, s.redis + [x.1], s.memory + [y.1])
  }

  function SideRun(limit: Limit, times: seq<int>, expired: seq<bool>): Sides
    requires |expired| == |times|
    decreases |times|
  {
    if times == [] then NO_SIDES
    else
      var n := |times| - 1;
      NextSides(limit, SideRun(limit, times[..n], expired[..n]), times[n], expired[n])
  }

  lemma {:induction false} SideRunIs(limit: Limit, times: seq<int>, expired: seq<bool>)
    requires |expired| == |times|
    ensures SideRun(limit, times, expired)
         == Sides(RedisState(limit, times, expired), MemoryRun(limit, times).0,
                  RedisDecisions(limit, times, expired), MemoryDecisions(limit, times))
    decreases |times|
  {
    if times == [] {
    } else {
      SideRunIs(limit, times[..|times| - 1], expired[..|times| - 1]);
    }
  }

  /** The decisions agree exactly if no full bucket held a repeat so far, and then the states do. */
  ghost predicate Paired(limit: Limit, s: Sides, last: int, none: bool) {
    && |s.redis| == |s.memory| && |s.bucket| <= limit.max
    && (s.redis == s.memory <==> none)
    && (none ==> Mirrors(limit, s.z, s.bucket, last))
  }

  lemma NextPaired(limit: Limit, s: Sides, last: int, none: bool, now: int, expired: bool)
    requires limit.max > 0 && Paired(limit, s, last, none) && 0 <= now && last <= now
    ensures Paired(limit, NextSides(limit, s, now, expired), now,
                   none && !MeetsRepeat(limit, s.bucket, now))
  {
    var (x, y) := (CheckRedis(limit, s.z, now, expired), Check(limit, s.bucket, now));
    TrimKeepsWindow(limit, s.bucket, now - limit.Span(), 0);
    SameLast(s.redis, s.memory, x.1, y.1);
    if none { NextDecision(limit, s.z, s.bucket, last, now, expired); }
  }

  lemma {:induction false} BucketIs(limit: Limit, times: seq<int>, expired: seq<bool>)
    requires |expired| == |times|
    ensures SideRun(limit, times, expired).bucket == MemoryRun(limit, times).0
    decreases |times|
  {
    if times == [] {
    } else {
      BucketIs(limit, times[..|times| - 1], expired[..|times| - 1]);
    }
  }

  /** No request met one, told from the run of both sides. */
  ghost predicate NoneSoFar(limit: Limit, times: seq<int>, expired: seq<bool>)
    requires |expired| == |times|
    decreases |times|
  {
    times == [] ||
    var n := |times| - 1;
    && NoneSoFar(limit, times[..n], expired[..n])
    && !MeetsRepeat(limit, SideRun(limit, times[..n], expired[..n]).bucket, times[n])
  }

  lemma {:induction false} NoneSoFarIs(limit: Limit, times: seq<int>, expired: seq<bool>)
    requires |expired| == |times|
    ensures NoneSoFar(limit, times, expired) <==> NoneFullWithRepeat(limit, times)
    decreases |times|
  {
    if times == [] {
    } else {
      NoneSoFarIs(limit, times[..|times| - 1], expired[..|times| - 1]);
      BucketIs(limit, times[..|times| - 1], expired[..|times| - 1]);
    }
  }

  lemma NobodyPaired(limit: Limit)
    ensures Paired(limit, NO_SIDES, 0, true)
  {
  }

  ghost predicate KeptBy(limit: Limit, inv: (Sides, int, bool) -> bool, s: Sides, last: int, none: bool,
                         now: int, expired: bool)
  {
    inv(s, last, none) && 0 <= now && last <= now ==>
      inv(NextSides(limit, s, now, expired), now,
          none && !MeetsRepeat(limit, s.bucket, now))
  }

  /** A property of both sides that every further request keeps. */
  ghost predicate Kept(limit: Limit, inv: (Sides, int, bool) -> bool) {
    && inv(NO_SIDES, 0, true)
    && forall s: Sides, last: int, none: bool, now: int, expired: bool ::
         KeptBy(limit, inv, s, last, none, now, expired)
  }

  lemma {:induction false} KeptThroughout(limit: Limit, inv: (Sides, int, bool) -> bool, times: seq<int>,
                                          expired: seq<bool>)
    requires Kept(limit, inv) && |expired| == |times| && Ticks(times)
    ensures inv(SideRun(limit, times, expired), LastReading(times, 0), NoneSoFar(limit, times, expired))
    decreases |times|
  {
    if times == [] {
    } else {
      var n := |times| - 1;
      KeptThroughout(limit, inv, times[..n], expired[..n]);
      assert KeptBy(limit, inv, SideRun(limit, times[..n], expired[..n]), LastReading(times[..n], 0),
                    NoneSoFar(limit, times[..n], expired[..n]), times[n], expired[n]);
    }
  }

  lemma AllPaired(limit: Limit, times: seq<int>, expired: seq<bool>)
    requires limit.max > 0 && |expired| == |times| && Ticks(times)
    ensures Paired(limit, SideRun(limit, times, expired), LastReading(times, 0),
                   NoneSoFar(limit, times, expired))
  {
    ghost var inv := (s: Sides, last: int, none: bool) => Paired(limit, s, last, none);
    NobodyPaired(limit);
    forall s: Sides, last: int, none: bool, now: int, expired: bool
      ensures KeptBy(limit, inv, s, last, none, now, expired)
    {
      if inv(s, last, none) && 0 <= now && last <= now { NextPaired(limit, s, last, none, now, expired); }
    }
    KeptThroughout(limit, inv, times, expired);
  }

  lemma NextDecision(limit: Limit, z: ZSet, bucket: seq<int>, last: int, now: int, expired: bool)
    requires Mirrors(limit, z, bucket, last) && 0 < limit.max && |bucket| <= limit.max
    requires 0 <= now && last <= now
    ensures CheckRedis(limit, z, now, expired).1 == Check(limit, bucket, now).1
       <==> !FullWithRepeat(limit, Trim(bucket, now - limit.Span()))
    ensures !FullWithRepeat(limit, Trim(bucket, now - limit.Span())) ==>
      Mirrors(limit, CheckRedis(limit, z, now, expired).0, Check(limit, bucket, now).0, now)
  {
    RedisMirrorsMemory(limit, z, bucket, last, now, expired);
    if !FullWithRepeat(limit, Trim(bucket, now - limit.Span())) {
      MirrorsKept(limit, z, bucket, last, now, expired);
    }
  }

  lemma SameLast(a: seq<Decision>, b: seq<Decision>, x: Decision, y: Decision)
    requires |a| == |b|
    ensures a + [x] == b + [y] <==> a == b && x == y
  {
    if a + [x] == b + [y] {
      assert a == (a + [x])[..|a|] && b == (b + [y])[..|b|];
      assert x == (a + [x])[|a|] && y == (b + [y])[|b|];
    }
  }

  /** For checks that do not overlap, on any clock that does not step back: the Redis limiter makes
      the decisions of the memory limiter, retry times included and however late keys expire, if
      and only if no request meets a full bucket that holds two equal readings. */
  lemma RedisDecidesLikeMemoryIff(limit: Limit, times: seq<int>, expired: seq<bool>)
    requires limit.max > 0 && |expired| == |times| && Clock(times)
    ensures RedisDecisions(limit, times, expired) == MemoryDecisions(limit, times)
       <==> forall n: nat :: n < |times| ==> !FullWithRepeat(limit, BucketAt(limit, times, n))
  {
    ClockTicks(times);
    AllPaired(limit, times, expired);
    SideRunIs(limit, times, expired);
    NoneSoFarIs(limit, times, expired);
    NoneMeansNone(limit, times);
  }

  lemma StrictBucket(limit: Limit, times: seq<int>, n: nat)
    requires Increasing(times) && n < |times|
    ensures !Repeats(BucketAt(limit, times, n))
  {
    MemoryRunStrict(limit, times[..n], times[n]);
    TrimIsSuffix(MemoryRun(limit, times[..n]).0, times[n] - limit.Span());
  }

  lemma {:induction false} MemoryRunStrict(limit: Limit, times: seq<int>, bound: int)
    requires Increasing(times) && forall i :: 0 <= i < |times| ==> times[i] < bound
    ensures Increasing(MemoryRun(limit, times).0) && AllBelow(MemoryRun(limit, times).0, bound)
    decreases |times|
  {
    if times == [] {
    } else {
      var n := |times| - 1;
      MemoryRunStrict(limit, times[..n], times[n]);
      CheckStrict(limit, MemoryRun(limit, times[..n]).0, times[n]);
    }
  }

  lemma CheckStrict(limit: Limit, bucket: seq<int>, now: int)
    requires Increasing(bucket) && AllBelow(bucket, now)
    ensures Increasing(Check(limit, bucket, now).0) && AllBelow(Check(limit, bucket, now).0, now + 1)
  {
    TrimIsSuffix(bucket, now - limit.Span());
  }

  /** In particular they agree on all strictly increasing readings. */
  lemma RedisDecidesLikeMemory(limit: Limit, times: seq<int>, expired: seq<bool>)
    requires limit.max > 0 && |expired| == |times| && Clock(times) && Increasing(times)
    ensures RedisDecisions(limit, times, expired) == MemoryDecisions(limit, times)
  {
    forall n: nat | n < |times| ensures !FullWithRepeat(limit, BucketAt(limit, times, n)) {
      StrictBucket(limit, times, n);
    }
    RedisDecidesLikeMemoryIff(limit, times, expired);
  }

  /** Three requests in one microsecond under a limit of two: the memory form refuses the third,
      Redis has stored the reading once and admits it. */
  lemma EqualReadingsDiffer()
    ensures MemoryDecisions(Limit(2, 60), [5, 5, 5]) != RedisDecisions(Limit(2, 60), [5, 5, 5], [false, false, false])
    ensures Check(Limit(2, 60), MemoryRun(Limit(2, 60), [5, 5]).0, 5).1.Refused?
  {
    var limit := Limit(2, 60);
    ThirdBucket();
    assert [5, 5, 5][..2] == [5, 5];
    assert BucketAt(limit, [5, 5, 5], 2) == [5, 5];
    assert Repeats([5, 5]) by { assert [5, 5][0] == [5, 5][1]; }
    RedisDecidesLikeMemoryIff(limit, [5, 5, 5], [false, false, false]);
  }

  lemma ThirdBucket()
    ensures MemoryRun(Limit(2, 60), [5, 5]).0 == [5, 5]
    ensures Trim([5, 5], 5 - Limit(2, 60).Span()) == [5, 5]
  {
    assert [5, 5][..1] == [5] && [5][..0] == [];
    TrimNothing([5], -59_999_995);
    TrimNothing([5, 5], -59_999_995);
    assert MemoryRun(Limit(2, 60), [5]).0 == [5];
  }

  // ---------------------------------------------------------------- retrying

  /** A refused client that stays quiet is admitted exactly from the moment the oldest
      admission leaves the window. */
  lemma QuietClientAdmitted(limit: Limit, kept: seq<int>, now: int, later: int)
    requires limit.max > 0 && NonDecreasing(kept) && |kept| == limit.max
    requires kept == Trim(kept, now - limit.Span())
    ensures Check(limit, kept, now) == (kept, Refused(RetryAfter(limit, kept[0], now)))
    ensures Check(limit, kept, later).1.Allowed? <==> kept[0] + limit.Span() <= later
  {
    var start := later - limit.Span();
    TrimIsSuffix(kept, start);
    var again := Trim(kept, start);
    assert |again| == |kept| ==> again[0] == kept[0];
  }

  /** A refusal always leaves a full window, whose oldest entry has left it before
      `retryAfter` + 1 seconds have passed. */
  lemma RefusalEndsInTime(limit: Limit, bucket: seq<int>, admitted: seq<int>, now: int, later: int)
    requires limit.max > 0 && MemoryInv(limit, bucket, admitted, now) && now <= later
    requires Check(limit, bucket, now).1.Refused?
    requires later >= now + (Check(limit, bucket, now).1.retryAfter + 1) * 1_000_000
    ensures Check(limit, Check(limit, bucket, now).0, later).1.Allowed?
  {
    var kept := Trim(bucket, now - limit.Span());
    BucketOrdered(limit, bucket, admitted, now);
    RefusedIsFull(limit, bucket, now);
    QuietClientAdmitted(limit, kept, now, later);
    RetryCovers(limit, kept[0], now, later);
  }

  lemma BucketOrdered(limit: Limit, bucket: seq<int>, admitted: seq<int>, now: int)
    requires MemoryInv(limit, bucket, admitted, now)
    ensures NonDecreasing(bucket) && |bucket| <= limit.max
  {
    SuffixOrdered(admitted, |admitted| - |bucket|);
  }

  lemma TrimTwice(bucket: seq<int>, start: int)
    requires NonDecreasing(bucket)
    ensures var kept := Trim(bucket, start);
      |kept| <= |bucket| && NonDecreasing(kept) && Trim(kept, start) == kept
  {
    TrimIsSuffix(bucket, start);
    var kept := Trim(bucket, start);
    SuffixOrdered(bucket, |bucket| - |kept|);
    TrimNothing(kept, start);
  }

  lemma RefusedIsFull(limit: Limit, bucket: seq<int>, now: int)
    requires limit.max > 0 && NonDecreasing(bucket) && |bucket| <= limit.max
    requires Check(limit, bucket, now).1.Refused?
    ensures var kept := Trim(bucket, now - limit.Span());
      && |kept| == limit.max && NonDecreasing(kept) && kept == Trim(kept, now - limit.Span())
      && Check(limit, bucket, now) == (kept, Refused(RetryAfter(limit, kept[0], now)))
  {
    TrimTwice(bucket, now - limit.Span());
  }

  lemma SuffixOrdered(times: seq<int>, n: nat)
    requires NonDecreasing(times) && n <= |times|
    ensures NonDecreasing(times[n..])
  {
  }

  lemma RetryCovers(limit: Limit, oldest: int, now: int, later: int)
    requires later >= now + (RetryAfter(limit, oldest, now) + 1) * 1_000_000
    ensures oldest + limit.Span() <= later
  {
  }

  /** Waiting exactly `retryAfter` seconds is enough if and only if no fraction of a second was cut
      off: the time left is at most one second or a whole number of them. */
  lemma RetryAfterSufficesIff(limit: Limit, bucket: seq<int>, admitted: seq<int>, now: int)
    requires limit.max > 0 && MemoryInv(limit, bucket, admitted, now)
    requires Check(limit, bucket, now).1.Refused?
    ensures var (kept, d) := Check(limit, bucket, now);
      && kept != []
      && var left := kept[0] + limit.Span() - now;
      Check(limit, kept, now + d.retryAfter * 1_000_000).1.Allowed?
      <==> left <= 1_000_000 || left % 1_000_000 == 0
  {
    var kept := Trim(bucket, now - limit.Span());
    BucketOrdered(limit, bucket, admitted, now);
    RefusedIsFull(limit, bucket, now);
    QuietClientAdmitted(limit, kept, now, now + RetryAfter(limit, kept[0], now) * 1_000_000);
    WholeSeconds(kept[0] + limit.Span() - now);
  }

  lemma WholeSeconds(left: int)
    ensures var wait := if left < 2_000_000 then 1 else left / 1_000_000;
      left <= wait * 1_000_000 <==> left <= 1_000_000 || left % 1_000_000 == 0
  {
  }

  /** Waiting exactly `retryAfter` seconds can be too short, because the remaining time is
      rounded down: admitted at 0, refused at 0.5 s with 59 s to wait, refused again then. */
  lemma RetryAfterCanBeShort()
    ensures var limit := Limit(1, 60);
      var first := Check(limit, [0], SECOND / 2);
      && first.1 == Refused(59)
      && Check(limit, first.0, SECOND / 2 + 59 * SECOND).1.Refused?
  {
    var limit := Limit(1, 60);
    TrimNothing([0], SECOND / 2 - limit.Span());
    TrimNothing([0], SECOND / 2 + 59 * SECOND - limit.Span());
  }

  // ---------------------------------------------------------------- retrying against Redis

  /** The member that has to leave before there is room: with overlapping checks the set can hold
      more than `max` members, and then it is not the oldest. */
  function Blocking(limit: Limit, members: seq<int>): int
    requires 0 < limit.max <= |members|
  {
    members[|members| - limit.max]
  }

  ghost predicate Sorted(members: seq<int>) {
    Increasing(members) && forall i :: 0 <= i < |members| ==> members[i] >= 0
  }

  lemma RoomIff(limit: Limit, members: seq<int>, last: int)
    requires Sorted(members) && 0 < limit.max <= |members|
    ensures |ZRemUpTo(members, last)| < limit.max <==> Blocking(limit, members) <= last
  {
    ZRemIsTrim(members, last);
    TrimIsSuffix(members, last);
    var kept := Trim(members, last);
    var at := |members| - limit.max;
    if |kept| >= limit.max { assert members[at] == kept[at - (|members| - |kept|)]; }
  }

  /** Against Redis a quiet client is admitted exactly from the moment on when the blocking member has
      left the window. */
  lemma QuietRedisClientAdmitted(limit: Limit, z: ZSet, later: int)
    requires Sorted(z.members) && 0 < limit.max <= |z.members|
    ensures CheckRedis(limit, z, later, false).1.Allowed?
       <==> Blocking(limit, z.members) + limit.Span() <= later
  {
    RoomIff(limit, z.members, later - limit.Span());
  }

  /** A refusal names the time until the oldest member leaves and keeps what the window holds. */
  lemma RedisRefusal(limit: Limit, z: ZSet, now: int)
    requires Sorted(z.members) && 0 < limit.max && CheckRedis(limit, z, now, false).1.Refused?
    ensures var (z', d) := CheckRedis(limit, z, now, false);
      && Sorted(z'.members) && limit.max <= |z'.members|
      && d == Refused(RetryAfter(limit, z'.members[0], now))
      && z'.members == ZRemUpTo(z.members, now - limit.Span())
  {
    ZRemIsTrim(z.members, now - limit.Span());
    TrimIsSuffix(z.members, now - limit.Span());
  }

  /** After a refusal by Redis, waiting `retryAfter` + 1 seconds is enough if and only if the blocking
      member has left by then: always if exactly `max` members are stored, and otherwise only if the
      members up to it are close enough to the oldest. */
  lemma RedisRefusalEndsIff(limit: Limit, z: ZSet, now: int)
    requires Sorted(z.members) && 0 < limit.max && CheckRedis(limit, z, now, false).1.Refused?
    ensures var (z', d) := CheckRedis(limit, z, now, false);
      var later := now + (d.retryAfter + 1) * 1_000_000;
      && limit.max <= |z'.members|
      && (CheckRedis(limit, z', later, false).1.Allowed?
          <==> Blocking(limit, z'.members) + limit.Span() <= later)
      && (|z'.members| == limit.max ==> CheckRedis(limit, z', later, false).1.Allowed?)
  {
    RedisRefusal(limit, z, now);
    var (z', d) := CheckRedis(limit, z, now, false);
    var later := now + (d.retryAfter + 1) * 1_000_000;
    QuietRedisClientAdmitted(limit, z', later);
    if |z'.members| == limit.max { RetryCovers(limit, z'.members[0], now, later); }
  }

  /** One a minute, and two members from overlapping checks at 1 s and 30 s: at 31 s the client is told
      to wait 30 s; 31 s later it is refused again. */
  lemma RedisRetryTooShort()
    ensures var (limit, z) := (Limit(1, 60), ZSet([1 * SECOND, 30 * SECOND], 91 * SECOND));
      var first := CheckRedis(limit, z, 31 * SECOND, false);
      && first.1 == Refused(30)
      && CheckRedis(limit, first.0, (31 + 31) * SECOND, false).1.Refused?
  {
    var (limit, z) := (Limit(1, 60), ZSet([1 * SECOND, 30 * SECOND], 91 * SECOND));
    ZRemIsTrim(z.members, 31 * SECOND - limit.Span());
    TrimNothing(z.members, 31 * SECOND - limit.Span());
    QuietRedisClientAdmitted(limit, z, 62 * SECOND);
  }

  // ---------------------------------------------------------------- the middleware

  /** The per-process state of the middleware; keys combine client address and path limit. */
  class RateLimitMiddleware {
    var memBuckets: map<string, seq<int>>

    constructor ()
      ensures memBuckets == map[]
    {
      memBuckets := map[];
    }

    function Bucket(key: string): seq<int>
      reads this
    {
      if key in memBuckets then memBuckets[key] else []
    }

    /** The fallback limiter: only the caller's own bucket changes. */
    method CheckLimitMemory(key: string, limit: Limit, now: int) returns (allowed: bool, retryAfter: int)
      modifies this
      ensures memBuckets == old(memBuckets)[key := Check(limit, old(Bucket(key)), now).0]
      ensures allowed == Check(limit, old(Bucket(key)), now).1.Allowed?
      ensures retryAfter == match Check(limit, old(Bucket(key)), now).1
                            case Allowed => 0
                            case Refused(seconds) => seconds
    {
      var kept := Trim(Bucket(key), now - limit.Span());
      memBuckets := memBuckets[key := kept];
      if |kept| >= limit.max {
        var oldest := if kept != [] then kept[0] else now;
        return false, RetryAfter(limit, oldest, now);
      }
      memBuckets := memBuckets[key := kept + [now]];
      return true, 0;
    }
  }
}
