/** The limiter in one process that serves requests concurrently. A check against Redis is a
    clock reading and up to four commands with an await before each, so checks interleave; each
    command can fail, and then the request falls back to the memory form. */
module RateLimitRaces {
  import opened Text
  import opened RateLimit

  // ---------------------------------------------------------------- the process

  datatype Stage =
    | Begun       // the clock is read, ZREMRANGEBYSCORE comes next
    | Trimmed     // ZCARD comes next
    | Full        // the count was too high, ZRANGE comes next
    | Counted     // the count was low enough, ZADD comes next
    | Added       // EXPIRE comes next

  datatype Pending = Pending(now: int, stage: Stage)

  /** The sorted set's key. A key without members does not exist; a key without a deadline lasts. */
  datatype Key = Key(members: seq<int>, expireAt: Option<int>)

  datatype Process = Process(
    clock: int, key: Key, checks: seq<Pending>, bucket: seq<int>,
    viaRedis: seq<int>,        // history: readings of the requests that Redis admitted
    viaMemory: seq<int>)       // history: readings of the requests that the memory form admitted

  const NEW_PROCESS := Process(-1, Key([], None), [], [], [], [])

  datatype Step =
    | Begin(now: int)                  // a request arrives and reads the clock
    | Command(at: nat)                 // the next command of a check takes effect and answers
    | Fails(at: nat, done: bool)       // it raises, with or without having taken effect
    | Pass(to: int)                    // time passes
    | Vanish                           // Redis removes an expired key

  /** What the next command of a check does to the key. */
  function Effect(limit: Limit, p: Process, check: Pending): Key {
    match check.stage
    case Begun =>
      var left := ZRemUpTo(p.key.members, check.now - limit.Span());
      if left == [] then Key([], None) else p.key.(members := left)
    case Counted => p.key.(members := ZAdd(p.key.members, check.now))
    case Added =>
      if p.key.members == [] then p.key
      else p.key.(expireAt := Some(p.clock + limit.Span() + SECOND))
    case _ => p.key
  }

  function Without(checks: seq<Pending>, at: nat): seq<Pending>
    requires at < |checks|
  {
    checks[..at] + checks[at + 1..]
  }

  function Answer(limit: Limit, p: Process, at: nat): Process
    requires at < |p.checks|
  {
    var check := p.checks[at];
    var q := p.(key := Effect(limit, p, check));
    match check.stage
    case Begun => q.(checks := p.checks[at := check.(stage := Trimmed)])
    case Trimmed =>
      var next := if |p.key.members| >= limit.max then Full else Counted;
      q.(checks := p.checks[at := check.(stage := next)])
    case Full => q.(checks := Without(p.checks, at))
    case Counted => q.(checks := p.checks[at := check.(stage := Added)])
    case Added => q.(checks := Without(p.checks, at), viaRedis := p.viaRedis + [check.now])
  }

  /** The memory form reads the clock again. */
  function Fallback(limit: Limit, p: Process, at: nat, done: bool): Process
    requires at < |p.checks|
  {
    var (bucket, d) := Check(limit, p.bucket, p.clock);
    p.(key := if done then Effect(limit, p, p.checks[at]) else p.key,
       checks := Without(p.checks, at), bucket := bucket,
       viaMemory := if d.Allowed? then p.viaMemory + [p.clock] else p.viaMemory)
  }

  predicate Expired(p: Process) {
    p.key.expireAt.Some? && p.key.expireAt.value <= p.clock
  }

  function Next(limit: Limit, p: Process, step: Step): Process {
    match step
    case Begin(now) =>
      if now <= p.clock then p else p.(clock := now, checks := p.checks + [Pending(now, Begun)])
    case Command(at) => if at >= |p.checks| then p else Answer(limit, p, at)
    case Fails(at, done) => if at >= |p.checks| then p else Fallback(limit, p, at, done)
    case Pass(to) => if to <= p.clock then p else p.(clock := to)
    case Vanish => if Expired(p) then p.(key := Key([], None)) else p
  }

  function Run(limit: Limit, p: Process, steps: seq<Step>): Process
    decreases |steps|
  {
    if steps == [] then p else Next(limit, Run(limit, p, steps[..|steps| - 1]), steps[|steps| - 1])
  }

  // ---------------------------------------------------------------- how much overlaps

  /** The three gaps of a check in which others can get ahead of it. */
  datatype Gap =
    | Late        // it has read the clock and not counted yet
    | Held        // it has counted and not stored yet
    | Loose       // it has stored and not set the deadline yet

  predicate InGap(stage: Stage, gap: Gap) {
    match gap
    case Late => stage.Begun? || stage.Trimmed?
    case Held => stage.Counted?
    case Loose => stage.Added?
  }

  function Tally(checks: seq<Pending>, gap: Gap): nat {
    if checks == [] then 0
    else
      var n := |checks| - 1;
      Tally(checks[..n], gap) + if InGap(checks[n].stage, gap) then 1 else 0
  }

  /** The next step trims the set for one of the checks. */
  predicate Trims(p: Process, step: Step) {
    && (step.Command? || (step.Fails? && step.done))
    && step.at < |p.checks| && p.checks[step.at].stage.Begun?
  }

  /** At most `held` checks are ever between count and store; at most `late` others are between
      reading and count when one trims, or any when the key expires; and at most `loose` between
      store and deadline when the key expires. */
  datatype Overlap = Overlap(held: nat, late: nat, loose: nat)

  predicate StepWithin(limit: Limit, p: Process, step: Step, o: Overlap) {
    && Tally(Next(limit, p, step).checks, Held) <= o.held
    && (Trims(p, step) ==> Tally(p.checks, Late) <= o.late + 1)
    && (step.Vanish? && Expired(p) ==> Tally(p.checks, Late) <= o.late && Tally(p.checks, Loose) <= o.loose)
  }

  predicate Within(limit: Limit, p: Process, steps: seq<Step>, o: Overlap)
    decreases |steps|
  {
    steps == [] ||
    var n := |steps| - 1;
    Within(limit, p, steps[..n], o) && StepWithin(limit, Run(limit, p, steps[..n]), steps[n], o)
  }

  // ---------------------------------------------------------------- counting one window

  /** The checks of a gap whose reading lies in the window that starts at `from`. */
  function InWindowTally(limit: Limit, checks: seq<Pending>, gap: Gap, from: int): nat {
    if checks == [] then 0
    else
      var n := |checks| - 1;
      InWindowTally(limit, checks[..n], gap, from) + One(limit, checks[n], gap, from)
  }

  function One(limit: Limit, check: Pending, gap: Gap, from: int): nat {
    if InGap(check.stage, gap) && from <= check.now < from + limit.Span() then 1 else 0
  }

  lemma {:induction false} TallyBounds(limit: Limit, checks: seq<Pending>, gap: Gap, from: int)
    ensures InWindowTally(limit, checks, gap, from) <= Tally(checks, gap) <= |checks|
    decreases |checks|
  {
    if checks == [] {
    } else {
      TallyBounds(limit, checks[..|checks| - 1], gap, from);
    }
  }

  /** A check of the gap that read the clock outside the window counts only in the whole tally. */
  lemma {:induction false} TallyOutside(limit: Limit, checks: seq<Pending>, at: nat, gap: Gap, from: int)
    requires at < |checks| && InGap(checks[at].stage, gap) && One(limit, checks[at], gap, from) == 0
    ensures InWindowTally(limit, checks, gap, from) < Tally(checks, gap)
    decreases |checks|
  {
    var n := |checks| - 1;
    if at == n {
      TallyBounds(limit, checks[..n], gap, from);
    } else {
      TallyOutside(limit, checks[..n], at, gap, from);
    }
  }

  lemma TallyAppend(limit: Limit, checks: seq<Pending>, check: Pending, gap: Gap, from: int)
    ensures InWindowTally(limit, checks + [check], gap, from)
         == InWindowTally(limit, checks, gap, from) + One(limit, check, gap, from)
  {
    assert (checks + [check])[..|checks|] == checks;
  }

  lemma {:induction false} TallyUpdate(limit: Limit, checks: seq<Pending>, at: nat, check: Pending,
                                       gap: Gap, from: int)
    requires at < |checks|
    ensures InWindowTally(limit, checks[at := check], gap, from) + One(limit, checks[at], gap, from)
         == InWindowTally(limit, checks, gap, from) + One(limit, check, gap, from)
    decreases |checks|
  {
    var n := |checks| - 1;
    if at == n {
      assert checks[at := check][..n] == checks[..n];
    } else {
      assert checks[at := check][..n] == checks[..n][at := check];
      TallyUpdate(limit, checks[..n], at, check, gap, from);
    }
  }

  lemma {:induction false} TallyWithout(limit: Limit, checks: seq<Pending>, at: nat, gap: Gap, from: int)
    requires at < |checks|
    ensures InWindowTally(limit, Without(checks, at), gap, from) + One(limit, checks[at], gap, from)
         == InWindowTally(limit, checks, gap, from)
    decreases |checks|
  {
    var n := |checks| - 1;
    if at == n {
      assert Without(checks, at) == checks[..n];
    } else {
      assert Without(checks, at)[..n - 1] == Without(checks[..n], at);
      TallyWithout(limit, checks[..n], at, gap, from);
    }
  }

  // ---------------------------------------------------------------- the set and one window

  lemma {:induction false} ZAddMembers(members: seq<int>, t: int)
    ensures forall x :: x in ZAdd(members, t) <==> x in members || x == t
    decreases |members|
  {
    if members == [] || t < members[0] || t == members[0] {
    } else {
      ZAddMembers(members[1..], t);
      assert members == [members[0]] + members[1..];
    }
  }

  lemma {:induction false} ZAddInWindow(limit: Limit, members: seq<int>, t: int, from: int)
    requires t !in members
    ensures InWindow(limit, ZAdd(members, t), from)
         == InWindow(limit, members, from) + InWindow(limit, [t], from)
    decreases |members|
  {
    if members == [] || t < members[0] {
      InWindowConcat(limit, [t], members, from);
      assert [t] + [] == [t];
    } else {
      ZAddInWindow(limit, members[1..], t, from);
      InWindowConcat(limit, [members[0]], ZAdd(members[1..], t), from);
      InWindowConcat(limit, [members[0]], members[1..], from);
      assert members == [members[0]] + members[1..];
    }
  }

  /** Trimming below the window leaves the window alone. */
  lemma {:induction false} ZRemInWindow(limit: Limit, members: seq<int>, last: int, from: int)
    ensures forall x :: x in ZRemUpTo(members, last) ==> x in members
    ensures last < from ==> InWindow(limit, ZRemUpTo(members, last), from) == InWindow(limit, members, from)
    decreases |members|
  {
    if members == [] {
    } else {
      ZRemInWindow(limit, members[1..], last, from);
      InWindowConcat(limit, [members[0]], members[1..], from);
      InWindowConcat(limit, [members[0]], ZRemUpTo(members[1..], last), from);
      InWindowOne(limit, members[0], from);
      assert members == [members[0]] + members[1..];
    }
  }

  // ---------------------------------------------------------------- the invariant

  /** Checks are kept in the order of their readings, all different, and none is stored early. */
  ghost predicate Fresh(p: Process) {
    && (forall i, j :: 0 <= i < j < |p.checks| ==> p.checks[i].now < p.checks[j].now)
    && (forall i :: 0 <= i < |p.checks| ==> p.checks[i].now <= p.clock)
    && (forall i :: 0 <= i < |p.checks| && !p.checks[i].stage.Added? ==>
          p.checks[i].now !in p.key.members)
    && (forall x :: x in p.key.members ==> x <= p.clock)
    && (p.key.members == [] ==> p.key.expireAt.None?)
  }

  lemma BeginKeepsFresh(limit: Limit, p: Process, now: int)
    requires Fresh(p) && now > p.clock
    ensures Fresh(Next(limit, p, Begin(now)))
  {
  }

  lemma EffectMembers(limit: Limit, p: Process, check: Pending)
    ensures forall x :: x in Effect(limit, p, check).members ==>
      x in p.key.members || (check.stage.Counted? && x == check.now)
    ensures Effect(limit, p, check).members == [] ==>
      Effect(limit, p, check).expireAt.None? || p.key == Effect(limit, p, check)
  {
    match check.stage
    case Begun => ZRemInWindow(limit, p.key.members, check.now - limit.Span(), 0);
    case Counted => ZAddMembers(p.key.members, check.now);
    case _ =>
  }

  lemma WithoutKeepsFresh(limit: Limit, p: Process, at: nat)
    requires Fresh(p) && at < |p.checks|
    ensures Fresh(p.(checks := Without(p.checks, at), key := Effect(limit, p, p.checks[at])))
    ensures Fresh(p.(checks := Without(p.checks, at)))
  {
    EffectMembers(limit, p, p.checks[at]);
  }

  lemma UpdateKeepsFresh(limit: Limit, p: Process, at: nat, stage: Stage)
    requires Fresh(p) && at < |p.checks| && !p.checks[at].stage.Added?
    requires p.checks[at].stage.Counted? <==> stage.Added?
    ensures Fresh(p.(checks := p.checks[at := p.checks[at].(stage := stage)],
                     key := Effect(limit, p, p.checks[at])))
  {
    EffectMembers(limit, p, p.checks[at]);
  }

  lemma AnswerKeepsFresh(limit: Limit, p: Process, at: nat)
    requires Fresh(p) && at < |p.checks|
    ensures Fresh(Answer(limit, p, at))
  {
    match p.checks[at].stage
    case Begun => UpdateKeepsFresh(limit, p, at, Trimmed);
    case Trimmed => UpdateKeepsFresh(limit, p, at, if |p.key.members| >= limit.max then Full else Counted);
    case Counted => UpdateKeepsFresh(limit, p, at, Added);
    case _ => WithoutKeepsFresh(limit, p, at);
  }

  /** What the bound needs to know of a process, for the window that starts at `from`. */
  datatype Sums = Sums(clock: int, deadline: Option<int>, done: nat, held: nat, loose: nat, late: nat,
                       stored: nat)

  function SumsOf(limit: Limit, p: Process, from: int): Sums {
    Sums(p.clock, p.key.expireAt, InWindow(limit, p.viaRedis, from),
         InWindowTally(limit, p.checks, Held, from), InWindowTally(limit, p.checks, Loose, from),
         InWindowTally(limit, p.checks, Late, from), InWindow(limit, p.key.members, from))
  }

  /** The key cannot expire before the clock leaves the window. */
  predicate Safe(limit: Limit, s: Sums, from: int) {
    s.deadline.None? || s.deadline.value >= from + limit.Span()
  }

  /** What was admitted or stored in the window is still stored, but for what one expiry took. */
  predicate Intact(limit: Limit, s: Sums, from: int, o: Overlap) {
    && s.done + s.held + s.loose <= limit.max + o.held + o.loose - 1
    && s.done + s.loose <= s.stored + o.loose
    && (Safe(limit, s, from) || (s.done == 0 && s.loose <= s.stored))
  }

  /** The set may have lost the window; only checks that read the clock in it can still come. */
  predicate Spent(limit: Limit, s: Sums, from: int, o: Overlap) {
    && s.clock >= from + limit.Span()
    && s.done + s.held + s.loose + s.late <= limit.max + o.held + o.loose + o.late - 1
  }

  predicate Bounded(limit: Limit, s: Sums, from: int, o: Overlap) {
    if s.clock < from then s.done + s.held + s.loose + s.late == 0
    else Intact(limit, s, from, o) || Spent(limit, s, from, o)
  }

  ghost predicate Inv(limit: Limit, p: Process, from: int, o: Overlap) {
    Fresh(p) && Bounded(limit, SumsOf(limit, p, from), from, o)
  }

  lemma ClockKeepsInv(limit: Limit, p: Process, to: int, from: int, o: Overlap)
    requires Inv(limit, p, from, o) && to > p.clock && o.held > 0
    ensures Inv(limit, p.(clock := to), from, o)
  {
  }

  lemma BeginKeepsInv(limit: Limit, p: Process, now: int, from: int, o: Overlap)
    requires Inv(limit, p, from, o) && now > p.clock && o.held > 0
    ensures Inv(limit, Next(limit, p, Begin(now)), from, o)
  {
    ClockKeepsInv(limit, p, now, from, o);
    BeginKeepsFresh(limit, p, now);
    TallyAppend(limit, p.checks, Pending(now, Begun), Late, from);
    TallyAppend(limit, p.checks, Pending(now, Begun), Held, from);
    TallyAppend(limit, p.checks, Pending(now, Begun), Loose, from);
  }

  lemma VanishKeepsInv(limit: Limit, p: Process, from: int, o: Overlap)
    requires Inv(limit, p, from, o) && Expired(p)
    requires Tally(p.checks, Late) <= o.late && Tally(p.checks, Loose) <= o.loose
    ensures Inv(limit, p.(key := Key([], None)), from, o)
  {
    TallyBounds(limit, p.checks, Loose, from);
    TallyBounds(limit, p.checks, Late, from);
  }

  /** What the effect of a command does to the window's members. */
  lemma EffectInWindow(limit: Limit, p: Process, check: Pending, from: int)
    requires !check.stage.Added? ==> check.now !in p.key.members
    ensures var key := Effect(limit, p, check);
      && (check.stage.Begun? ==> check.now < from + limit.Span()) ==>
           InWindow(limit, key.members, from)
           == InWindow(limit, p.key.members, from) + One(limit, check, Held, from)
    ensures var key := Effect(limit, p, check);
      key.expireAt == p.key.expireAt || key.expireAt.None?
      || key.expireAt == Some(p.clock + limit.Span() + SECOND)
  {
    InWindowOne(limit, check.now, from);
    match check.stage
    case Begun => ZRemInWindow(limit, p.key.members, check.now - limit.Span(), from);
    case Counted => ZAddInWindow(limit, p.key.members, check.now, from);
    case _ =>
  }

  /** A check leaves a gap, or moves to the next one. */
  lemma MoveSums(limit: Limit, p: Process, at: nat, stage: Stage, from: int)
    requires at < |p.checks|
    ensures var (old_, new_) := (p.checks[at], p.checks[at].(stage := stage));
      forall gap: Gap ::
        InWindowTally(limit, p.checks[at := new_], gap, from) + One(limit, old_, gap, from)
        == InWindowTally(limit, p.checks, gap, from) + One(limit, new_, gap, from)
  {
    forall gap: Gap {
      TallyUpdate(limit, p.checks, at, p.checks[at].(stage := stage), gap, from);
    }
  }

  lemma DropSums(limit: Limit, p: Process, at: nat, from: int)
    requires at < |p.checks|
    ensures forall gap: Gap ::
      InWindowTally(limit, Without(p.checks, at), gap, from) + One(limit, p.checks[at], gap, from)
      == InWindowTally(limit, p.checks, gap, from)
  {
    forall gap: Gap {
      TallyWithout(limit, p.checks, at, gap, from);
    }
  }

  lemma TrimKeepsInv(limit: Limit, p: Process, at: nat, from: int, o: Overlap)
    requires Inv(limit, p, from, o) && at < |p.checks| && p.checks[at].stage.Begun?
    requires Tally(p.checks, Late) <= o.late + 1
    ensures Inv(limit, Answer(limit, p, at), from, o)
  {
    UpdateKeepsFresh(limit, p, at, Trimmed);
    MoveSums(limit, p, at, Trimmed, from);
    EffectInWindow(limit, p, p.checks[at], from);
    if p.checks[at].now >= from + limit.Span() { TallyOutside(limit, p.checks, at, Late, from); }
  }

  lemma CountKeepsInv(limit: Limit, p: Process, at: nat, from: int, o: Overlap)
    requires Inv(limit, p, from, o) && at < |p.checks| && p.checks[at].stage.Trimmed?
    requires Tally(Answer(limit, p, at).checks, Held) <= o.held
    ensures Inv(limit, Answer(limit, p, at), from, o)
  {
    if |p.key.members| >= limit.max {
      UpdateKeepsFresh(limit, p, at, Full);
      MoveSums(limit, p, at, Full, from);
    } else {
      PassKeepsInv(limit, p, at, from, o);
    }
  }

  lemma PassKeepsInv(limit: Limit, p: Process, at: nat, from: int, o: Overlap)
    requires Inv(limit, p, from, o) && at < |p.checks| && p.checks[at].stage.Trimmed?
    requires |p.key.members| < limit.max && Tally(Answer(limit, p, at).checks, Held) <= o.held
    ensures Inv(limit, Answer(limit, p, at), from, o)
  {
    UpdateKeepsFresh(limit, p, at, Counted);
    MoveSums(limit, p, at, Counted, from);
    TallyBounds(limit, Answer(limit, p, at).checks, Held, from);
    InWindowBounds(limit, p.key.members, from, 0);
  }

  lemma StoreKeepsInv(limit: Limit, p: Process, at: nat, from: int, o: Overlap)
    requires Inv(limit, p, from, o) && at < |p.checks| && p.checks[at].stage.Counted?
    ensures Inv(limit, Answer(limit, p, at), from, o)
  {
    UpdateKeepsFresh(limit, p, at, Added);
    MoveSums(limit, p, at, Added, from);
    EffectInWindow(limit, p, p.checks[at], from);
  }

  lemma RefusalKeepsInv(limit: Limit, p: Process, at: nat, from: int, o: Overlap)
    requires Inv(limit, p, from, o) && at < |p.checks| && p.checks[at].stage.Full?
    ensures Inv(limit, Answer(limit, p, at), from, o)
  {
    WithoutKeepsFresh(limit, p, at);
    DropSums(limit, p, at, from);
  }

  lemma DeadlineKeepsInv(limit: Limit, p: Process, at: nat, from: int, o: Overlap)
    requires Inv(limit, p, from, o) && at < |p.checks| && p.checks[at].stage.Added?
    ensures Inv(limit, Answer(limit, p, at), from, o)
  {
    WithoutKeepsFresh(limit, p, at);
    DropSums(limit, p, at, from);
    InWindowConcat(limit, p.viaRedis, [p.checks[at].now], from);
    InWindowOne(limit, p.checks[at].now, from);
  }

  lemma FailureKeepsInv(limit: Limit, p: Process, at: nat, done: bool, from: int, o: Overlap)
    requires Inv(limit, p, from, o) && at < |p.checks|
    requires done && p.checks[at].stage.Begun? ==> Tally(p.checks, Late) <= o.late + 1
    ensures Inv(limit, Fallback(limit, p, at, done), from, o)
  {
    WithoutKeepsFresh(limit, p, at);
    DropSums(limit, p, at, from);
    EffectInWindow(limit, p, p.checks[at], from);
    if p.checks[at].stage.Begun? && p.checks[at].now >= from + limit.Span() {
      TallyOutside(limit, p.checks, at, Late, from);
    }
  }

  lemma StepKeepsInv(limit: Limit, p: Process, step: Step, from: int, o: Overlap)
    requires Inv(limit, p, from, o) && o.held > 0 && StepWithin(limit, p, step, o)
    ensures Inv(limit, Next(limit, p, step), from, o)
  {
    match step
    case Begin(now) => if now > p.clock { BeginKeepsInv(limit, p, now, from, o); }
    case Pass(to) => if to > p.clock { ClockKeepsInv(limit, p, to, from, o); }
    case Vanish => if Expired(p) { VanishKeepsInv(limit, p, from, o); }
    case Fails(at, done) => if at < |p.checks| { FailureKeepsInv(limit, p, at, done, from, o); }
    case Command(at) =>
      if at < |p.checks| {
        match p.checks[at].stage
        case Begun => TrimKeepsInv(limit, p, at, from, o);
        case Trimmed => CountKeepsInv(limit, p, at, from, o);
        case Counted => StoreKeepsInv(limit, p, at, from, o);
        case Full => RefusalKeepsInv(limit, p, at, from, o);
        case Added => DeadlineKeepsInv(limit, p, at, from, o);
      }
  }

  lemma {:induction false} RunKeepsInv(limit: Limit, steps: seq<Step>, from: int, o: Overlap)
    requires o.held > 0 && Within(limit, NEW_PROCESS, steps, o)
    ensures Inv(limit, Run(limit, NEW_PROCESS, steps), from, o)
    decreases |steps|
  {
    if steps == [] {
    } else {
      var n := |steps| - 1;
      RunKeepsInv(limit, steps[..n], from, o);
      StepKeepsInv(limit, Run(limit, NEW_PROCESS, steps[..n]), steps[n], from, o);
    }
  }

  // ---------------------------------------------------------------- the memory side

  lemma FallbackKeepsMemory(limit: Limit, p: Process, at: nat, done: bool)
    requires MemoryInv(limit, p.bucket, p.viaMemory, p.clock) && at < |p.checks|
    ensures var q := Fallback(limit, p, at, done); MemoryInv(limit, q.bucket, q.viaMemory, q.clock)
  {
    CheckKeepsInv(limit, p.bucket, p.viaMemory, p.clock, p.clock);
  }

  lemma OthersLeaveMemory(limit: Limit, p: Process, step: Step)
    requires step.Fails? ==> step.at >= |p.checks|
    ensures var q := Next(limit, p, step);
      q.bucket == p.bucket && q.viaMemory == p.viaMemory && p.clock <= q.clock
  {
  }

  lemma StepKeepsMemory(limit: Limit, p: Process, step: Step)
    requires MemoryInv(limit, p.bucket, p.viaMemory, p.clock)
    ensures var q := Next(limit, p, step); MemoryInv(limit, q.bucket, q.viaMemory, q.clock)
  {
    if step.Fails? && step.at < |p.checks| {
      FallbackKeepsMemory(limit, p, step.at, step.done);
    } else {
      OthersLeaveMemory(limit, p, step);
      InvLasts(limit, p.bucket, p.viaMemory, p.clock, Next(limit, p, step).clock);
    }
  }

  lemma {:induction false} RunKeepsMemory(limit: Limit, steps: seq<Step>)
    ensures var p := Run(limit, NEW_PROCESS, steps); MemoryInv(limit, p.bucket, p.viaMemory, p.clock)
    decreases |steps|
  {
    if steps == [] {
    } else {
      var n := |steps| - 1;
      RunKeepsMemory(limit, steps[..n]);
      StepKeepsMemory(limit, Run(limit, NEW_PROCESS, steps[..n]), steps[n]);
    }
  }

  // ---------------------------------------------------------------- the bounds

  /** In any window, with checks interleaving at every command, commands failing with or without
      effect, and keys expiring: Redis admits at most `max` - 1 requests plus the largest number of
      checks caught in each of the three gaps; the memory form admits at most `max` more. */
  lemma OverlapBoundsWindow(limit: Limit, steps: seq<Step>, o: Overlap, from: int)
    requires o.held > 0 && Within(limit, NEW_PROCESS, steps, o)
    ensures var p := Run(limit, NEW_PROCESS, steps);
      && InWindow(limit, p.viaRedis, from) <= limit.max - 1 + o.held + o.late + o.loose
      && InWindow(limit, p.viaMemory, from) <= limit.max
  {
    RunKeepsInv(limit, steps, from, o);
    RunKeepsMemory(limit, steps);
    SpacedWindow(limit, Run(limit, NEW_PROCESS, steps).viaMemory, from);
  }

  predicate InFlightAtMost(limit: Limit, p: Process, steps: seq<Step>, k: nat)
    decreases |steps|
  {
    && |Run(limit, p, steps).checks| <= k
    && (steps == [] || InFlightAtMost(limit, p, steps[..|steps| - 1], k))
  }

  lemma {:induction false} InFlightIsWithin(limit: Limit, p: Process, steps: seq<Step>, k: nat)
    requires InFlightAtMost(limit, p, steps, k)
    ensures Within(limit, p, steps, Overlap(k, k, k))
    decreases |steps|
  {
    if steps == [] {
    } else {
      var n := |steps| - 1;
      InFlightIsWithin(limit, p, steps[..n], k);
      TallyBounds(limit, Run(limit, p, steps).checks, Held, 0);
      TallyBounds(limit, Run(limit, p, steps[..n]).checks, Late, 0);
      TallyBounds(limit, Run(limit, p, steps[..n]).checks, Loose, 0);
    }
  }

  /** The bound in the largest number of checks in flight alone. */
  lemma InFlightBoundsWindow(limit: Limit, steps: seq<Step>, k: nat, from: int)
    requires k > 0 && InFlightAtMost(limit, NEW_PROCESS, steps, k)
    ensures var p := Run(limit, NEW_PROCESS, steps);
      && InWindow(limit, p.viaRedis, from) <= limit.max - 1 + 3 * k
      && InWindow(limit, p.viaMemory, from) <= limit.max
  {
    InFlightIsWithin(limit, NEW_PROCESS, steps, k);
    OverlapBoundsWindow(limit, steps, Overlap(k, k, k), from);
  }

  /** The key never expires while a check is between reading and count, or between store and
      deadline. It may expire at any other time. */
  predicate NoExpiryInGaps(limit: Limit, p: Process, steps: seq<Step>)
    decreases |steps|
  {
    steps == [] ||
    var n := |steps| - 1;
    var q := Run(limit, p, steps[..n]);
    && NoExpiryInGaps(limit, p, steps[..n])
    && (steps[n].Vanish? && Expired(q) ==> Tally(q.checks, Late) == 0 && Tally(q.checks, Loose) == 0)
  }

  lemma {:induction false} UnexpiredIsWithin(limit: Limit, p: Process, steps: seq<Step>, k: nat)
    requires k > 0 && InFlightAtMost(limit, p, steps, k) && NoExpiryInGaps(limit, p, steps)
    ensures Within(limit, p, steps, Overlap(k, k - 1, 0))
    decreases |steps|
  {
    if steps == [] {
    } else {
      var n := |steps| - 1;
      UnexpiredIsWithin(limit, p, steps[..n], k);
      TallyBounds(limit, Run(limit, p, steps).checks, Held, 0);
      TallyBounds(limit, Run(limit, p, steps[..n]).checks, Late, 0);
    }
  }

  /** Without such an expiry: at most `max` for one check at a time, and two more for each further
      check in flight, however long checks take. */
  lemma UnexpiredBoundsWindow(limit: Limit, steps: seq<Step>, k: nat, from: int)
    requires k > 0 && InFlightAtMost(limit, NEW_PROCESS, steps, k)
    requires NoExpiryInGaps(limit, NEW_PROCESS, steps)
    ensures var p := Run(limit, NEW_PROCESS, steps);
      && InWindow(limit, p.viaRedis, from) <= limit.max + 2 * (k - 1)
      && InWindow(limit, p.viaMemory, from) <= limit.max
  {
    UnexpiredIsWithin(limit, NEW_PROCESS, steps, k);
    OverlapBoundsWindow(limit, steps, Overlap(k, k - 1, 0), from);
  }

  /** One process with one check under way at a time never admits more than twice the limit in a
      window: time may pass and commands may fail anywhere, with or without effect, and the key may
      expire, but not while a check is between reading and count or between store and deadline. */
  lemma OutagesAtMostDouble(limit: Limit, steps: seq<Step>, from: int)
    requires InFlightAtMost(limit, NEW_PROCESS, steps, 1) && NoExpiryInGaps(limit, NEW_PROCESS, steps)
    ensures var p := Run(limit, NEW_PROCESS, steps);
      && InWindow(limit, p.viaRedis, from) <= limit.max
      && InWindow(limit, p.viaRedis, from) + InWindow(limit, p.viaMemory, from) <= 2 * limit.max
  {
    UnexpiredBoundsWindow(limit, steps, 1, from);
  }

  // ---------------------------------------------------------------- an undisturbed check

  lemma {:induction false} RunConcat(limit: Limit, p: Process, a: seq<Step>, b: seq<Step>)
    ensures Run(limit, p, a + b) == Run(limit, Run(limit, p, a), b)
    decreases |b|
  {
    if b == [] {
      assert a + b == a;
    } else {
      var n := |b| - 1;
      assert (a + b)[..|a + b| - 1] == a + b[..n];
      RunConcat(limit, p, a, b[..n]);
    }
  }

  /** A request whose commands follow one another; a refused check has no fifth. */
  function Undisturbed(limit: Limit, p: Process, now: int): Process {
    var two := Next(limit, Next(limit, p, Begin(now)), Command(0));
    Next(limit, Next(limit, Next(limit, two, Command(0)), Command(0)), Command(0))
  }

  /** An undisturbed check does what the one-step limiter does: same decision, same set, same
      deadline. */
  lemma UndisturbedCheck(limit: Limit, p: Process, now: int)
    requires Fresh(p) && p.checks == [] && now > p.clock
    ensures var (z, d) := CheckRedis(limit, ZSet(p.key.members, 0), now, false);
      var q := Undisturbed(limit, p, now);
      && q.checks == [] && q.key.members == z.members
      && q.viaRedis == (if d.Allowed? then p.viaRedis + [now] else p.viaRedis)
      && (d.Allowed? ==> q.key.expireAt == Some(z.expireAt))
  {
    FirstHalf(limit, p, now);
    SecondHalf(limit, Next(limit, Next(limit, p, Begin(now)), Command(0)), now);
    OneStepForm(limit, p.key.members, now);
  }

  lemma OneStepForm(limit: Limit, members: seq<int>, now: int)
    ensures var (z, d) := CheckRedis(limit, ZSet(members, 0), now, false);
      var left := ZRemUpTo(members, now - limit.Span());
      if |left| >= limit.max then d.Refused? && z.members == left
      else d.Allowed? && z == ZSet(ZAdd(left, now), now + limit.Span() + SECOND)
  {
  }

  lemma FirstHalf(limit: Limit, p: Process, now: int)
    requires p.checks == [] && now > p.clock
    requires p.key.members == [] ==> p.key.expireAt.None?
    ensures var q := Next(limit, Next(limit, p, Begin(now)), Command(0));
      && q.checks == [Pending(now, Trimmed)] && q.clock == now && q.viaRedis == p.viaRedis
      && q.key.members == ZRemUpTo(p.key.members, now - limit.Span())
  {
  }

  lemma SecondHalf(limit: Limit, p: Process, now: int)
    requires p.checks == [Pending(now, Trimmed)] && p.clock == now
    ensures var q := Next(limit, Next(limit, p, Command(0)), Command(0));
      var r := Next(limit, q, Command(0));
      if |p.key.members| >= limit.max then r == p.(checks := [])
      else
        && r.checks == [] && r.viaRedis == p.viaRedis + [now]
        && r.key == Key(ZAdd(p.key.members, now), Some(now + limit.Span() + SECOND))
  {
    var one := Next(limit, p, Command(0));
    if |p.key.members| >= limit.max {
      assert one.checks == [Pending(now, Full)];
      assert Without(one.checks, 0) == [];
    } else {
      assert one.checks == [Pending(now, Counted)];
      var two := Next(limit, one, Command(0));
      assert two.checks == [Pending(now, Added)];
      ZAddMembers(p.key.members, now);
      assert now in two.key.members;
      assert Without(two.checks, 0) == [];
    }
  }

  /** A command that fails may have taken its effect on the key, and then it is the one it would have
      had; the request is decided by the memory form, at the clock as it is then. */
  lemma FailedCommand(limit: Limit, p: Process, at: nat, done: bool)
    requires at < |p.checks|
    ensures var (p', (bucket, d)) := (Next(limit, p, Fails(at, done)), Check(limit, p.bucket, p.clock));
      && p'.key == (if done then Next(limit, p, Command(at)).key else p.key)
      && p'.checks == p.checks[..at] + p.checks[at + 1..] && p'.clock == p.clock
      && p'.bucket == bucket && p'.viaRedis == p.viaRedis
      && p'.viaMemory == p.viaMemory + if d.Allowed? then [p.clock] else []
  {
    assert p.viaMemory + [] == p.viaMemory;
  }

  // ---------------------------------------------------------------- the bound is reached

  /** The readings 1, 2, ... */
  function Firsts(n: nat): seq<int> {
    seq(n, i requires 0 <= i < n => i + 1)
  }

  /** The first `a` requests are admitted and stored, the ones up to `b` have passed the count. */
  ghost predicate Wave(p: Process, a: nat, b: nat) {
    && a <= b && p.clock == (if b == 0 then -1 else b)
    && p.key.members == Firsts(a) && p.viaRedis == Firsts(a) && (a == 0 ==> p.key.expireAt.None?)
    && |p.checks| == b - a
    && forall i :: 0 <= i < b - a ==> p.checks[i] == Pending(a + 1 + i, Counted)
  }

  lemma {:induction false} NothingToTrim(members: seq<int>, last: int)
    requires forall i :: 0 <= i < |members| ==> members[i] > last
    ensures ZRemUpTo(members, last) == members
    decreases |members|
  {
    if members == [] {
    } else {
      NothingToTrim(members[1..], last);
    }
  }

  lemma {:induction false} NoneLate(checks: seq<Pending>)
    requires forall i :: 0 <= i < |checks| ==> !InGap(checks[i].stage, Late)
    ensures Tally(checks, Late) == 0
    decreases |checks|
  {
    if checks == [] {
    } else {
      NoneLate(checks[..|checks| - 1]);
    }
  }

  /** One more request reads the clock, trims and counts; all others wait to store. */
  lemma OneMorePasses(limit: Limit, p: Process, a: nat, b: nat)
    requires Wave(p, a, b) && a < limit.max && b < limit.Span()
    ensures var last := Command(b - a);
      Wave(Next(limit, Next(limit, Next(limit, p, Begin(b + 1)), last), last), a, b + 1)
  {
    var last := b - a;
    NothingToTrim(p.key.members, b + 1 - limit.Span());
    var one := Next(limit, p, Begin(b + 1));
    var two := Next(limit, one, Command(last));
    assert two.checks == p.checks + [Pending(b + 1, Trimmed)] && two.key == p.key;
    var three := Next(limit, two, Command(last));
    assert three.checks == p.checks + [Pending(b + 1, Counted)] && three.key == p.key;
  }

  /** The first waiting request stores its reading and is admitted. */
  lemma OneIsAdmitted(limit: Limit, p: Process, a: nat, b: nat)
    requires Wave(p, a, b) && a < b
    ensures Wave(Next(limit, Next(limit, p, Command(0)), Command(0)), a + 1, b)
  {
    ZAddAppends(p.key.members, a + 1);
    assert Firsts(a) + [a + 1] == Firsts(a + 1);
    var one := Next(limit, p, Command(0));
    assert one.key.members == Firsts(a + 1);
    assert Without(one.checks, 0) == p.checks[1..];
  }

  /** Few checks in flight, and no expiry at a bad time. */
  ghost predicate Plain(limit: Limit, steps: seq<Step>, k: nat) {
    InFlightAtMost(limit, NEW_PROCESS, steps, k) && NoExpiryInGaps(limit, NEW_PROCESS, steps)
  }

  lemma ExtendPlain(limit: Limit, steps: seq<Step>, step: Step, k: nat)
    requires Plain(limit, steps, k) && !step.Vanish?
    requires |Next(limit, Run(limit, NEW_PROCESS, steps), step).checks| <= k
    ensures Plain(limit, steps + [step], k)
    ensures Run(limit, NEW_PROCESS, steps + [step]) == Next(limit, Run(limit, NEW_PROCESS, steps), step)
  {
    assert (steps + [step])[..|steps|] == steps;
  }

  /** Small steps that stay within an overlap. */
  predicate Modest(limit: Limit, p: Process, step: Step, o: Overlap) {
    StepWithin(limit, p, step, o) && !step.Vanish? && |Next(limit, p, step).checks| <= o.held
  }

  lemma Extend(limit: Limit, steps: seq<Step>, step: Step, o: Overlap)
    requires Within(limit, NEW_PROCESS, steps, o) && Plain(limit, steps, o.held)
    requires Modest(limit, Run(limit, NEW_PROCESS, steps), step, o)
    ensures Within(limit, NEW_PROCESS, steps + [step], o) && Plain(limit, steps + [step], o.held)
    ensures Run(limit, NEW_PROCESS, steps + [step]) == Next(limit, Run(limit, NEW_PROCESS, steps), step)
  {
    assert (steps + [step])[..|steps|] == steps;
    ExtendPlain(limit, steps, step, o.held);
  }

  lemma CommandWithin(limit: Limit, p: Process, at: nat, o: Overlap)
    requires |p.checks| <= o.held && Tally(p.checks, Late) <= o.late + 1
    ensures Modest(limit, p, Command(at), o) && |Next(limit, p, Command(at)).checks| <= |p.checks|
  {
    TallyBounds(limit, Next(limit, p, Command(at)).checks, Held, 0);
  }

  lemma OneIsLate(checks: seq<Pending>, check: Pending)
    requires forall i :: 0 <= i < |checks| ==> !InGap(checks[i].stage, Late)
    ensures Tally(checks + [check], Late) <= 1
  {
    NoneLate(checks);
    assert (checks + [check])[..|checks|] == checks;
  }

  /** A new check reads, trims and counts while the others wait to store. */
  lemma PassWithin(limit: Limit, p: Process, now: int, o: Overlap)
    requires now > p.clock && |p.checks| < o.held
    requires forall i :: 0 <= i < |p.checks| ==> p.checks[i].stage.Counted?
    ensures var (one, last) := (Next(limit, p, Begin(now)), Command(|p.checks|));
      && Modest(limit, p, Begin(now), o) && Modest(limit, one, last, o)
      && Modest(limit, Next(limit, one, last), last, o)
  {
    var one := Next(limit, p, Begin(now));
    var two := Next(limit, one, Command(|p.checks|));
    PassShapes(limit, p, now);
    TallyBounds(limit, one.checks, Held, 0);
    OneIsLate(p.checks, Pending(now, Begun));
    CommandWithin(limit, one, |p.checks|, o);
    OneIsLate(p.checks, Pending(now, Trimmed));
    CommandWithin(limit, two, |p.checks|, o);
  }

  lemma PassShapes(limit: Limit, p: Process, now: int)
    requires now > p.clock
    ensures var one := Next(limit, p, Begin(now));
      && one.checks == p.checks + [Pending(now, Begun)]
      && Next(limit, one, Command(|p.checks|)).checks == p.checks + [Pending(now, Trimmed)]
  {
  }

  lemma ExtendThrice(limit: Limit, steps: seq<Step>, a: Step, b: Step, c: Step, o: Overlap)
    requires Within(limit, NEW_PROCESS, steps, o) && Plain(limit, steps, o.held)
    requires var p := Run(limit, NEW_PROCESS, steps);
      && Modest(limit, p, a, o) && Modest(limit, Next(limit, p, a), b, o)
      && Modest(limit, Next(limit, Next(limit, p, a), b), c, o)
    ensures Within(limit, NEW_PROCESS, steps + [a] + [b] + [c], o) && Plain(limit, steps + [a] + [b] + [c], o.held)
    ensures Run(limit, NEW_PROCESS, steps + [a] + [b] + [c])
         == Next(limit, Next(limit, Next(limit, Run(limit, NEW_PROCESS, steps), a), b), c)
  {
    Extend(limit, steps, a, o);
    Extend(limit, steps + [a], b, o);
    Extend(limit, steps + [a] + [b], c, o);
  }

  lemma PassOne(limit: Limit, steps: seq<Step>, a: nat, b: nat, o: Overlap) returns (more: seq<Step>)
    requires Reaches(limit, steps, a, b, o)
    requires a < limit.max && b < limit.Span() && b - a < o.held
    ensures Reaches(limit, more, a, b + 1, o)
  {
    var (p, last) := (Run(limit, NEW_PROCESS, steps), Command(b - a));
    OneMorePasses(limit, p, a, b);
    PassWithin(limit, p, b + 1, o);
    ExtendThrice(limit, steps, Begin(b + 1), last, last, o);
    more := steps + [Begin(b + 1)] + [last] + [last];
  }

  lemma AdmitOne(limit: Limit, steps: seq<Step>, a: nat, b: nat, o: Overlap) returns (more: seq<Step>)
    requires Reaches(limit, steps, a, b, o)
    requires a < b <= a + o.held
    ensures Reaches(limit, more, a + 1, b, o)
  {
    var p := Run(limit, NEW_PROCESS, steps);
    OneIsAdmitted(limit, p, a, b);
    NoneLate(p.checks);
    CommandWithin(limit, p, 0, o);
    Extend(limit, steps, Command(0), o);
    NoneLate(Next(limit, p, Command(0)).checks);
    CommandWithin(limit, Next(limit, p, Command(0)), 0, o);
    Extend(limit, steps + [Command(0)], Command(0), o);
    more := steps + [Command(0)] + [Command(0)];
  }

  lemma {:induction false} AllInWindow(limit: Limit, n: nat)
    requires n <= limit.Span()
    ensures InWindow(limit, Firsts(n), 1) == n
    decreases n
  {
    if n == 0 {
    } else {
      assert Firsts(n)[..n - 1] == Firsts(n - 1);
      AllInWindow(limit, n - 1);
    }
  }

  ghost predicate Reaches(limit: Limit, steps: seq<Step>, a: nat, b: nat, o: Overlap) {
    && Within(limit, NEW_PROCESS, steps, o) && Plain(limit, steps, o.held)
    && Wave(Run(limit, NEW_PROCESS, steps), a, b)
  }

  lemma OneAfterTheOther(limit: Limit, n: nat, o: Overlap) returns (steps: seq<Step>)
    requires n < limit.max && n <= limit.Span() && o.held > 0
    ensures Reaches(limit, steps, n, n, o)
  {
    if n == 0 {
      steps := [];
    } else {
      steps := OneAfterTheOther(limit, n - 1, o);
      steps := PassOne(limit, steps, n - 1, n - 1, o);
      steps := AdmitOne(limit, steps, n - 1, n, o);
    }
  }

  lemma AllAtOnce(limit: Limit, steps: seq<Step>, a: nat, k: nat, o: Overlap) returns (more: seq<Step>)
    requires Reaches(limit, steps, a, a, o) && a < limit.max && a + k <= limit.Span() && k <= o.held
    ensures Reaches(limit, more, a, a + k, o)
  {
    if k == 0 {
      more := steps;
    } else {
      more := AllAtOnce(limit, steps, a, k - 1, o);
      more := PassOne(limit, more, a, a + k - 1, o);
    }
  }

  lemma AllAdmitted(limit: Limit, steps: seq<Step>, a: nat, b: nat, o: Overlap) returns (more: seq<Step>)
    requires Reaches(limit, steps, a, b, o) && b - a <= o.held
    ensures Reaches(limit, more, b, b, o)
    decreases b - a
  {
    if a == b {
      more := steps;
    } else {
      more := AdmitOne(limit, steps, a, b, o);
      more := AllAdmitted(limit, more, a + 1, b, o);
    }
  }

  /** The bound is reached: `max` - 1 requests one after the other and then `k` at once are all
      admitted, with Redis up, the readings strictly increasing and no failure. */
  lemma OverlapBoundIsReached(limit: Limit, k: nat) returns (steps: seq<Step>)
    requires limit.max > 0 && k > 0 && limit.max + k <= limit.Span()
    ensures Within(limit, NEW_PROCESS, steps, Overlap(k, 0, 0))
    ensures InWindow(limit, Run(limit, NEW_PROCESS, steps).viaRedis, 1) == limit.max - 1 + k
  {
    var (n, o) := (limit.max - 1, Overlap(k, 0, 0));
    steps := OneAfterTheOther(limit, n, o);
    steps := AllAtOnce(limit, steps, n, k, o);
    steps := AllAdmitted(limit, steps, n, n + k, o);
    AllInWindow(limit, n + k);
  }

  /** Five a minute on the login path: twenty requests at once follow four, and all of them are
      admitted, more than twice the limit. */
  lemma BurstExceedsTwice() returns (steps: seq<Step>)
    ensures InWindow(Limit(5, 60), Run(Limit(5, 60), NEW_PROCESS, steps).viaRedis, 1) == 24
  {
    steps := OverlapBoundIsReached(Limit(5, 60), 20);
  }

  // ---------------------------------------------------------------- late checks

  /** The first `base` requests are admitted; `j` more have only read the clock. */
  ghost predicate Waiting(p: Process, base: nat, j: nat) {
    && p.clock == base + j && p.key.members == Firsts(base) && p.viaRedis == Firsts(base)
    && |p.checks| == j && forall i :: 0 <= i < j ==> p.checks[i] == Pending(base + 1 + i, Begun)
  }

  /** Another check has emptied the set; `c` of the late ones have counted. */
  ghost predicate Emptied(p: Process, base: nat, j: nat, c: nat) {
    && p.key == Key([], None) && p.viaRedis == Firsts(base) && |p.checks| == j + 1 && c <= j
    && (forall i :: 0 <= i < c ==> p.checks[i] == Pending(base + 1 + i, Counted))
    && (forall i :: c <= i < j ==> p.checks[i] == Pending(base + 1 + i, Begun))
  }

  /** `a` of the late ones are admitted, the others have counted. */
  ghost predicate Draining(p: Process, base: nat, j: nat, a: nat) {
    && p.viaRedis == Firsts(base + a) && a <= j && |p.checks| == j - a + 1
    && forall i :: 0 <= i < j - a ==> p.checks[i] == Pending(base + a + 1 + i, Counted)
  }

  lemma ReadLate(limit: Limit, steps: seq<Step>, base: nat, j: nat, k: nat) returns (more: seq<Step>)
    requires Plain(limit, steps, k) && Waiting(Run(limit, NEW_PROCESS, steps), base, 0) && j <= k
    ensures Plain(limit, more, k) && Waiting(Run(limit, NEW_PROCESS, more), base, j)
  {
    if j == 0 {
      more := steps;
    } else {
      more := ReadLate(limit, steps, base, j - 1, k);
      ExtendPlain(limit, more, Begin(base + j), k);
      more := more + [Begin(base + j)];
    }
  }

  lemma {:induction false} TrimsAll(members: seq<int>, last: int)
    requires forall i :: 0 <= i < |members| ==> 0 <= members[i] <= last
    ensures ZRemUpTo(members, last) == []
    decreases |members|
  {
    if members == [] {
    } else {
      TrimsAll(members[1..], last);
    }
  }

  lemma Empty(limit: Limit, steps: seq<Step>, base: nat, j: nat, k: nat) returns (more: seq<Step>)
    requires Plain(limit, steps, k) && Waiting(Run(limit, NEW_PROCESS, steps), base, j)
    requires j < k && j < limit.Span()
    ensures Plain(limit, more, k) && Emptied(Run(limit, NEW_PROCESS, more), base, j, 0)
  {
    var p := Run(limit, NEW_PROCESS, steps);
    var now := base + limit.Span();
    TrimsAll(Firsts(base), base);
    ExtendPlain(limit, steps, Begin(now), k);
    var one := Next(limit, p, Begin(now));
    assert one.checks == p.checks + [Pending(now, Begun)];
    ExtendPlain(limit, steps + [Begin(now)], Command(j), k);
    more := steps + [Begin(now)] + [Command(j)];
  }

  /** One late check trims nothing, counts nothing and passes. */
  lemma LatePasses(limit: Limit, p: Process, base: nat, j: nat, c: nat)
    requires Emptied(p, base, j, c) && c < j && limit.max > 0
    ensures var one := Next(limit, p, Command(c));
      && |one.checks| == j + 1 && Emptied(Next(limit, one, Command(c)), base, j, c + 1)
  {
    var one := Next(limit, p, Command(c));
    assert one.checks == p.checks[c := Pending(base + 1 + c, Trimmed)] && one.key == Key([], None);
  }

  lemma CountLate(limit: Limit, steps: seq<Step>, base: nat, j: nat, c: nat, k: nat) returns (more: seq<Step>)
    requires Plain(limit, steps, k) && Emptied(Run(limit, NEW_PROCESS, steps), base, j, 0)
    requires c <= j < k && limit.max > 0
    ensures Plain(limit, more, k) && Emptied(Run(limit, NEW_PROCESS, more), base, j, c)
    decreases c
  {
    if c == 0 {
      more := steps;
    } else {
      more := CountLate(limit, steps, base, j, c - 1, k);
      LatePasses(limit, Run(limit, NEW_PROCESS, more), base, j, c - 1);
      ExtendPlain(limit, more, Command(c - 1), k);
      more := more + [Command(c - 1)];
      ExtendPlain(limit, more, Command(c - 1), k);
      more := more + [Command(c - 1)];
    }
  }

  lemma LateAdmitted(limit: Limit, p: Process, base: nat, j: nat, a: nat)
    requires Draining(p, base, j, a) && a < j
    ensures var one := Next(limit, p, Command(0));
      && |one.checks| == |p.checks| && Draining(Next(limit, one, Command(0)), base, j, a + 1)
  {
    var one := Next(limit, p, Command(0));
    assert Without(one.checks, 0) == p.checks[1..];
    assert Firsts(base + a) + [base + a + 1] == Firsts(base + a + 1);
  }

  lemma AdmitLate(limit: Limit, steps: seq<Step>, base: nat, j: nat, a: nat, k: nat) returns (more: seq<Step>)
    requires Plain(limit, steps, k) && Draining(Run(limit, NEW_PROCESS, steps), base, j, 0)
    requires a <= j < k
    ensures Plain(limit, more, k) && Draining(Run(limit, NEW_PROCESS, more), base, j, a)
    decreases a
  {
    if a == 0 {
      more := steps;
    } else {
      more := AdmitLate(limit, steps, base, j, a - 1, k);
      LateAdmitted(limit, Run(limit, NEW_PROCESS, more), base, j, a - 1);
      ExtendPlain(limit, more, Command(0), k);
      more := more + [Command(0)];
      ExtendPlain(limit, more, Command(0), k);
      more := more + [Command(0)];
    }
  }

  /** The bound without expiry is reached for every limit and every number of checks in flight: `k` at
      once, and then all but one of `k` late, whose window the last one has emptied. */
  lemma UnexpiredBoundIsReached(limit: Limit, k: nat) returns (steps: seq<Step>)
    requires limit.max > 0 && k > 0 && limit.max + 2 * k <= limit.Span()
    ensures InFlightAtMost(limit, NEW_PROCESS, steps, k) && NoExpiryInGaps(limit, NEW_PROCESS, steps)
    ensures InWindow(limit, Run(limit, NEW_PROCESS, steps).viaRedis, 1) == limit.max + 2 * (k - 1)
  {
    steps := FullAndMore(limit, k);
    steps := AllButOneLate(limit, steps, limit.max - 1 + k, k);
    AllInWindow(limit, limit.max - 1 + k + (k - 1));
  }

  lemma FullAndMore(limit: Limit, k: nat) returns (steps: seq<Step>)
    requires limit.max > 0 && k > 0 && limit.max + k <= limit.Span()
    ensures Plain(limit, steps, k) && Waiting(Run(limit, NEW_PROCESS, steps), limit.max - 1 + k, 0)
  {
    var (n, o) := (limit.max - 1, Overlap(k, 0, 0));
    steps := OneAfterTheOther(limit, n, o);
    steps := AllAtOnce(limit, steps, n, k, o);
    steps := AllAdmitted(limit, steps, n, n + k, o);
  }

  lemma AllButOneLate(limit: Limit, steps: seq<Step>, base: nat, k: nat) returns (more: seq<Step>)
    requires Plain(limit, steps, k) && Waiting(Run(limit, NEW_PROCESS, steps), base, 0)
    requires limit.max > 0 && 0 < k <= limit.Span()
    ensures Plain(limit, more, k) && Run(limit, NEW_PROCESS, more).viaRedis == Firsts(base + (k - 1))
  {
    more := ReadLate(limit, steps, base, k - 1, k);
    more := Empty(limit, more, base, k - 1, k);
    more := CountLate(limit, more, base, k - 1, k - 1, k);
    more := AdmitLate(limit, more, base, k - 1, k - 1, k);
  }

  // ---------------------------------------------------------------- expiry in a gap

  /** A run with one check under way at a time leads here. */
  ghost predicate Reached(limit: Limit, steps: seq<Step>, p: Process) {
    Run(limit, NEW_PROCESS, steps) == p && InFlightAtMost(limit, NEW_PROCESS, steps, 1)
  }

  lemma Then(limit: Limit, steps: seq<Step>, p: Process, step: Step) returns (more: seq<Step>)
    requires Reached(limit, steps, p) && |Next(limit, p, step).checks| <= 1
    ensures more == steps + [step] && Reached(limit, more, Next(limit, p, step))
  {
    more := steps + [step];
    assert more[..|steps|] == steps;
  }

  /** A check that meets room and no disturbance. */
  lemma CleanCheck(limit: Limit, steps: seq<Step>, p: Process, now: int) returns (more: seq<Step>)
    requires Reached(limit, steps, p) && p.checks == [] && now > p.clock
    requires p.key.members == [] ==> p.key.expireAt.None?
    requires |ZRemUpTo(p.key.members, now - limit.Span())| < limit.max
    ensures Reached(limit, more, p.(
      clock := now, viaRedis := p.viaRedis + [now],
      key := Key(ZAdd(ZRemUpTo(p.key.members, now - limit.Span()), now), Some(now + limit.Span() + SECOND))))
  {
    FirstHalf(limit, p, now);
    var one := Next(limit, p, Begin(now));
    var two := Next(limit, one, Command(0));
    SecondHalf(limit, two, now);
    var three := Next(limit, two, Command(0));
    var four := Next(limit, three, Command(0));
    assert three.checks == [Pending(now, Counted)] && four.checks == [Pending(now, Added)];
    more := Then(limit, steps, p, Begin(now));
    more := Then(limit, more, one, Command(0));
    more := Then(limit, more, two, Command(0));
    more := Then(limit, more, three, Command(0));
    more := Then(limit, more, four, Command(0));
  }

  /** A request comes while Redis is down; the memory form has room. */
  lemma DownCheck(limit: Limit, steps: seq<Step>, p: Process, now: int) returns (more: seq<Step>)
    requires Reached(limit, steps, p) && p.checks == [] && p.bucket == [] && now > p.clock && limit.max > 0
    ensures Reached(limit, more, p.(clock := now, bucket := [now], viaMemory := p.viaMemory + [now]))
  {
    var one := Next(limit, p, Begin(now));
    assert one.checks == [Pending(now, Begun)];
    assert Without(one.checks, 0) == [];
    more := Then(limit, steps, p, Begin(now));
    more := Then(limit, more, one, Fails(0, false));
    assert Next(limit, one, Fails(0, false))
        == p.(clock := now, bucket := [now], viaMemory := p.viaMemory + [now]);
  }

  /** Expiry between reading and count: a check reads the clock at 59.9 s and is held up until the key
      of the request at 0 s has expired. One a minute, one check at a time, and three requests of one
      window are admitted, two of them by Redis. */
  lemma ExpiryWhileLate() returns (steps: seq<Step>)
    ensures var (limit, p) := (Limit(1, 60), Run(Limit(1, 60), NEW_PROCESS, steps));
      && InFlightAtMost(limit, NEW_PROCESS, steps, 1)
      && p.viaRedis == [0, 59_900_000] && p.viaMemory == [30 * SECOND]
  {
    var limit := Limit(1, 60);
    steps := CleanCheck(limit, [], NEW_PROCESS, 0);
    var p := Process(0, Key([0], Some(61 * SECOND)), [], [], [0], []);
    steps := DownCheck(limit, steps, p, 30 * SECOND);
    p := Process(30 * SECOND, Key([0], Some(61 * SECOND)), [], [30 * SECOND], [0], [30 * SECOND]);
    steps := LateCheck(limit, steps, p, 59_900_000, 61 * SECOND);
  }

  /** A check reads the clock and trims; then the key expires; then it counts, stores and ends. */
  lemma LateCheck(limit: Limit, steps: seq<Step>, p: Process, now: int, end: int) returns (more: seq<Step>)
    requires Reached(limit, steps, p) && p.checks == [] && p.clock < now < end && limit.max > 0
    requires ZRemUpTo(p.key.members, now - limit.Span()) == p.key.members != []
    requires p.key.expireAt == Some(end)
    ensures Reached(limit, more, p.(
      clock := end, viaRedis := p.viaRedis + [now], key := Key([now], Some(end + limit.Span() + SECOND))))
  {
    var read := p.(clock := now, checks := [Pending(now, Begun)]);
    more := Then(limit, steps, p, Begin(now));
    var trimmed := read.(checks := [Pending(now, Trimmed)]);
    more := Then(limit, more, read, Command(0));
    more := Then(limit, more, trimmed, Pass(end));
    more := Then(limit, more, trimmed.(clock := end), Vanish);
    var gone := trimmed.(clock := end, key := Key([], None));
    more := Then(limit, more, gone, Command(0));
    var counted := gone.(checks := [Pending(now, Counted)]);
    more := Then(limit, more, counted, Command(0));
    var added := counted.(checks := [Pending(now, Added)], key := Key([now], None));
    assert Next(limit, counted, Command(0)) == added;
    assert Without(added.checks, 0) == [];
    more := Then(limit, more, added, Command(0));
  }

  /** Expiry between store and deadline: an EXPIRE has failed after its ZADD, so the key still has the
      deadline of an older request when a third one is stored, and expires before that one's EXPIRE.
      Two a minute, one check at a time, and Redis admits three of one window. */
  lemma ExpiryWhileLoose() returns (steps: seq<Step>)
    ensures var (limit, p) := (Limit(2, 60), Run(Limit(2, 60), NEW_PROCESS, steps));
      && InFlightAtMost(limit, NEW_PROCESS, steps, 1)
      && p.viaRedis == [0, 60_999_000, 61_001_000, 61_002_000]
  {
    steps := UntilTheExpiry();
    steps := AfterTheExpiry(steps);
  }

  lemma TwoMembers(a: int, b: int, last: int)
    requires 0 <= a <= last < b
    ensures ZAdd([a], b) == [a, b] && ZRemUpTo([a, b], last) == [b]
  {
    assert [a][1..] == [] && [a, b][1..] == [b] && [b][1..] == [];
    assert ZAdd([], b) == [b] && ZRemUpTo([b], last) == [b] + ZRemUpTo([], last);
  }

  lemma AfterTheFirst() returns (steps: seq<Step>)
    ensures Reached(Limit(2, 60), steps, Process(0, Key([0], Some(61 * SECOND)), [], [], [0], []))
  {
    assert ZRemUpTo([], 0 - Limit(2, 60).Span()) == [] && ZAdd([], 0) == [0];
    steps := CleanCheck(Limit(2, 60), [], NEW_PROCESS, 0);
  }

  lemma AfterTheFailure() returns (steps: seq<Step>)
    ensures Reached(Limit(2, 60), steps, Process(30 * SECOND, Key([0, 30 * SECOND], Some(61 * SECOND)), [],
                                                 [30 * SECOND], [0], [30 * SECOND]))
  {
    var p := Process(0, Key([0], Some(61 * SECOND)), [], [], [0], []);
    steps := AfterTheFirst();
    NothingToTrim([0], 30 * SECOND - Limit(2, 60).Span());
    TwoMembers(0, 30 * SECOND, SECOND);
    steps := UnextendedCheck(Limit(2, 60), steps, p, 30 * SECOND);
  }

  lemma UntilTheExpiry() returns (steps: seq<Step>)
    ensures Reached(Limit(2, 60), steps, Process(61 * SECOND, Key([], None), [], [30 * SECOND],
                                                 [0, 60_999_000], [30 * SECOND]))
  {
    steps := AfterTheFailure();
    var p := Process(30 * SECOND, Key([0, 30 * SECOND], Some(61 * SECOND)), [], [30 * SECOND], [0], [30 * SECOND]);
    TwoMembers(0, 30 * SECOND, 60_999_000 - Limit(2, 60).Span());
    steps := LooseCheck(Limit(2, 60), steps, p, 60_999_000, 61 * SECOND);
  }

  lemma AfterTheExpiry(steps: seq<Step>) returns (more: seq<Step>)
    requires Reached(Limit(2, 60), steps, Process(61 * SECOND, Key([], None), [], [30 * SECOND],
                                                  [0, 60_999_000], [30 * SECOND]))
    ensures Reached(Limit(2, 60), more, Process(
      61_002_000, Key([61_001_000, 61_002_000], Some(122_002_000)), [], [30 * SECOND],
      [0, 60_999_000, 61_001_000, 61_002_000], [30 * SECOND]))
  {
    var limit := Limit(2, 60);
    var p := Process(61 * SECOND, Key([], None), [], [30 * SECOND], [0, 60_999_000], [30 * SECOND]);
    more := CleanCheck(limit, steps, p, 61_001_000);
    p := Process(61_001_000, Key([61_001_000], Some(122_001_000)), [], [30 * SECOND],
                 [0, 60_999_000, 61_001_000], [30 * SECOND]);
    NothingToTrim([61_001_000], 61_002_000 - limit.Span());
    TwoMembers(61_001_000, 61_002_000, 61_001_000);
    more := CleanCheck(limit, more, p, 61_002_000);
  }

  /** A check stores its reading, and its EXPIRE fails. */
  lemma UnextendedCheck(limit: Limit, steps: seq<Step>, p: Process, now: int) returns (more: seq<Step>)
    requires Reached(limit, steps, p) && p.checks == [] && p.bucket == [] && now > p.clock
    requires ZRemUpTo(p.key.members, now - limit.Span()) == p.key.members != []
    requires |p.key.members| < limit.max
    ensures Reached(limit, more, p.(
      clock := now, bucket := [now], viaMemory := p.viaMemory + [now],
      key := p.key.(members := ZAdd(p.key.members, now))))
  {
    var read := p.(clock := now, checks := [Pending(now, Begun)]);
    more := Then(limit, steps, p, Begin(now));
    more := Then(limit, more, read, Command(0));
    var trimmed := read.(checks := [Pending(now, Trimmed)]);
    more := Then(limit, more, trimmed, Command(0));
    var counted := read.(checks := [Pending(now, Counted)]);
    more := Then(limit, more, counted, Command(0));
    var added := read.(checks := [Pending(now, Added)], key := p.key.(members := ZAdd(p.key.members, now)));
    assert Next(limit, counted, Command(0)) == added;
    assert Without(added.checks, 0) == [];
    more := Then(limit, more, added, Fails(0, false));
  }

  /** A check stores its reading; then the key expires; then the check ends. */
  lemma LooseCheck(limit: Limit, steps: seq<Step>, p: Process, now: int, end: int) returns (more: seq<Step>)
    requires Reached(limit, steps, p) && p.checks == [] && p.clock < now < end
    requires p.key.expireAt == Some(end)
    requires var left := ZRemUpTo(p.key.members, now - limit.Span()); left != [] && |left| < limit.max
    ensures Reached(limit, more, p.(clock := end, viaRedis := p.viaRedis + [now], key := Key([], None)))
  {
    var left := ZRemUpTo(p.key.members, now - limit.Span());
    var read := p.(clock := now, checks := [Pending(now, Begun)]);
    more := Then(limit, steps, p, Begin(now));
    more := Then(limit, more, read, Command(0));
    var trimmed := read.(checks := [Pending(now, Trimmed)], key := p.key.(members := left));
    more := Then(limit, more, trimmed, Command(0));
    var counted := trimmed.(checks := [Pending(now, Counted)]);
    more := Then(limit, more, counted, Command(0));
    var added := counted.(checks := [Pending(now, Added)], key := p.key.(members := ZAdd(left, now)));
    assert Next(limit, counted, Command(0)) == added;
    more := Then(limit, more, added, Pass(end));
    more := Then(limit, more, added.(clock := end), Vanish);
    var gone := added.(clock := end, key := Key([], None));
    assert Without(gone.checks, 0) == [];
    more := Then(limit, more, gone, Command(0));
  }

  // ---------------------------------------------------------------- more members than the limit

  /** Two overlapping checks leave both their readings under a limit of one: the set of
      `RedisRetryTooShort`, whose retry time is too short, is reached. */
  lemma OverlapLeavesTwo() returns (steps: seq<Step>)
    ensures var p := Run(Limit(1, 60), NEW_PROCESS, steps);
      p.checks == [] && p.clock == 30 * SECOND
      && p.key == Key([1 * SECOND, 30 * SECOND], Some(91 * SECOND))
  {
    var (limit, a, b) := (Limit(1, 60), 1 * SECOND, 30 * SECOND);
    var (first, second) := ([Begin(a), Command(0), Command(0)], [Begin(b), Command(1), Command(1)]);
    var ends := [Command(0), Command(0), Command(0)] + [Command(0)];
    steps := first + second + ends;
    var p1 := Process(a, Key([], None), [Pending(a, Counted)], [], [], []);
    var p2 := p1.(clock := b, checks := [Pending(a, Counted), Pending(b, Counted)]);
    RunConcat(limit, NEW_PROCESS, first + second, ends);
    RunConcat(limit, NEW_PROCESS, first, second);
    RunThree(limit, NEW_PROCESS, Begin(a), Command(0), Command(0));
    assert Run(limit, NEW_PROCESS, first) == p1;
    RunThree(limit, p1, Begin(b), Command(1), Command(1));
    assert Run(limit, p1, second) == p2;
    StoreBoth(limit, p2, a, b);
  }

  lemma RunThree(limit: Limit, p: Process, a: Step, b: Step, c: Step)
    ensures Run(limit, p, [a, b, c]) == Next(limit, Next(limit, Next(limit, p, a), b), c)
  {
    assert [a, b, c][..2] == [a, b] && [a, b][..1] == [a] && [a][..0] == [];
    assert Run(limit, p, [a]) == Next(limit, p, a);
    assert Run(limit, p, [a, b]) == Next(limit, Next(limit, p, a), b);
  }

  lemma StoreBoth(limit: Limit, p: Process, a: int, b: int)
    requires 0 <= a < b == p.clock && p.key == Key([], None)
    requires p.checks == [Pending(a, Counted), Pending(b, Counted)]
    ensures var q := Run(limit, p, [Command(0), Command(0), Command(0)] + [Command(0)]);
      q.checks == [] && q.clock == b && q.key == Key([a, b], Some(b + limit.Span() + SECOND))
  {
    TwoMembers(a, b, a);
    RunConcat(limit, p, [Command(0), Command(0), Command(0)], [Command(0)]);
    RunThree(limit, p, Command(0), Command(0), Command(0));
    var one := Next(limit, p, Command(0));
    assert one == p.(key := Key([a], None), checks := [Pending(a, Added), Pending(b, Counted)]);
    var two := Next(limit, one, Command(0));
    assert Without(one.checks, 0) == [Pending(b, Counted)];
    StoreSecond(limit, two, a, b);
  }

  lemma StoreSecond(limit: Limit, p: Process, a: int, b: int)
    requires 0 <= a < b == p.clock && p.checks == [Pending(b, Counted)]
    requires p.key.members == [a]
    ensures var three := Next(limit, p, Command(0));
      var q := Run(limit, three, [Command(0)]);
      q.checks == [] && q.clock == b && q.key == Key([a, b], Some(b + limit.Span() + SECOND))
  {
    TwoMembers(a, b, a);
    var three := Next(limit, p, Command(0));
    assert three.key.members == [a, b] && three.checks == [Pending(b, Added)];
    assert Without(three.checks, 0) == [];
    assert [Command(0)][..0] == [];
    assert Run(limit, three, [Command(0)]) == Next(limit, three, Command(0));
  }
}
