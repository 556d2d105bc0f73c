/** Attribution in the entry lane: no event leads to two records, and commands, open writes and
    openings of all daemon lives pair up one to one and in stream order. */
module EntryLaneOrder {
  import opened Text
  import opened EntryLane
  import opened EntryLaneProofs
  import Compass

  // ---------------------------------------------------------------- one record per event

  function Occurrences(xs: seq<nat>, id: nat): nat {
    if xs == [] then 0
    else Occurrences(xs[..|xs| - 1], id) + One(xs[|xs| - 1] == id)
  }

  function Carried(events: seq<Event>, id: nat): nat {
    if events == [] then 0
    else Carried(events[..|events| - 1], id) + One(events[|events| - 1].id == id)
  }

  function Held(pc: Pc, id: nat): nat {
    One(pc.Telling? && pc.event.id == id)
  }

  function HeldBy(d: Daemon, id: nat): nat {
    Held(d.listener, id) + Held(d.reader, id) + Held(d.consumer, id)
  }

  /** Everywhere an event can be: published or not, at the server, or on record. */
  function Traces(s: Lane, id: nat): nat {
    Occurrences(s.book.txs, id) + Occurrences(s.book.rejected, id) + Carried(s.redis.channel, id)
    + One(s.server.Deciding? && s.server.event.id == id) + HeldBy(s.d, id)
  }

  ghost predicate Single(s: Lane) {
    forall id: nat :: Traces(s, id) <= One(id < s.book.exits)
  }

  lemma OccurrencesAppend(xs: seq<nat>, x: nat, id: nat)
    ensures Occurrences(xs + [x], id) == Occurrences(xs, id) + One(x == id)
  {
    assert (xs + [x])[..|xs|] == xs;
  }

  lemma CarriedAppend(events: seq<Event>, e: Event, id: nat)
    ensures Carried(events + [e], id) == Carried(events, id) + One(e.id == id)
  {
    assert (events + [e])[..|events|] == events;
  }

  lemma {:induction false} CarriedWithout(events: seq<Event>, at: nat, id: nat)
    requires at < |events|
    ensures Carried(events[..at] + events[at + 1..], id) + One(events[at].id == id)
         == Carried(events, id)
    decreases |events|
  {
    var n := |events| - 1;
    var rest := events[..at] + events[at + 1..];
    if at == n {
      assert rest == events[..n];
    } else {
      CarriedWithout(events[..n], at, id);
      assert rest[..n - 1] == events[..n][..at] + events[..n][at + 1..];
    }
  }

  /** What a daemon segment may do with events: keep, drop, or raise the one it was given. */
  ghost predicate Keeps(d: Daemon, d': Daemon, effect: Effect, raised: nat, id: nat) {
    HeldBy(d', id) <= HeldBy(d, id) + One(effect.Raised? && id == raised)
  }

  lemma PutKeeps(d: Daemon, moved: Daemon, t: Task, pc: Pc, id: nat)
    requires moved.listener == d.listener && moved.reader == d.reader && moved.consumer == d.consumer
    ensures HeldBy(moved.Put(t, pc), id) + Held(d.At(t), id) == HeldBy(d, id) + Held(pc, id)
  {
    match t
    case Listener =>
    case Reader =>
    case Consumer =>
  }

  lemma SignalKeeps(c: Config, d: Daemon, t: Task, signal: Compass.Signal, raised: nat, id: nat)
    requires d.At(t).Ready?
    ensures Keeps(d, OnSignal(c, d, t, signal, raised).0, OnSignal(c, d, t, signal, raised).1, raised, id)
  {
    match signal
    case In1On => PutKeeps(d, d.(in1On := true).(gate := WaitingInput), t, Settling, id);
    case In1Off => PutKeeps(d, d.(in1On := false).(gate := Idle), t, Settling, id);
    case In2On => PutKeeps(d, d.(gate := Processing), t, Telling(Event(raised, TicketButton)), id);
    case In3On => PutKeeps(d, d, t, Helping, id);
    case In4On => PutKeeps(d, d.(gate := Idle), t, Settling, id);
    case In4Off => PutKeeps(d, d.(gate := Idle), t, Settling, id);
    case Card(number) =>
      PutKeeps(d, d.(gate := Validating), t, Telling(Event(raised, CardTap(number))), id);
    case Ignored =>
  }

  lemma CommandKeeps(c: Config, d: Daemon, command: Command, raised: nat, id: nat)
    requires d.consumer.Ready?
    ensures Keeps(d, OnCommand(c, d, command, raised).0, OnCommand(c, d, command, raised).1, raised, id)
  {
    if command.InjectRss? {
      SignalKeeps(c, d, Consumer, Compass.Classify(Compass.FramedText(command.signal)), raised, id);
    }
  }

  lemma ResumeKeeps(c: Config, d: Daemon, t: Task, now: int, raised: nat, id: nat)
    ensures Keeps(d, OnResume(c, d, t, now).0, OnResume(c, d, t, now).1, raised, id)
  {
    match d.At(t)
    case Settling => PutKeeps(d, d, t, Ready, id);
    case Told =>
      PutKeeps(d, d.(timers := d.timers[d.nextTimer := ValidatingTimer(now + c.timeout)],
                     validating := Some(d.nextTimer), nextTimer := d.nextTimer + 1), t, Ready, id);
    case Helping => PutKeeps(d, d.(gate := Idle), t, Settling, id);
    case Printing => PutKeeps(d, d, t, Relay(0), id);
    case Fired => PutKeeps(d, d.(gate := Opening), t, Opened, id);
    case Opened =>
      PutKeeps(d, d.(timers := d.timers[d.nextTimer := PassTimer(now + c.timeout)],
                     openedAt := now, nextTimer := d.nextTimer + 1), t, Ready, id);
    case Rejecting => PutKeeps(d, d.(gate := WaitingInput), t, Settling, id);
    case _ =>
  }

  ghost predicate Grows(s: Lane, s': Lane, id: nat) {
    && s.book.exits <= s'.book.exits
    && Traces(s', id) <= Traces(s, id) + One(id == s.book.exits && s.book.exits < s'.book.exits)
  }

  /** A daemon segment moves events only through the daemon. */
  lemma DaemonGrows(s: Lane, d': Daemon, effect: Effect, cursor: nat, handled: seq<nat>, id: nat)
    requires Keeps(s.d, d', effect, s.book.exits, id)
    ensures Grows(s, s.(d := d', redis := s.redis.(cursor := cursor),
                        book := Note(s.book.(handled := handled), effect)), id)
  {
  }

  lemma DaemonStepTraces(c: Config, s: Lane, step: Step, id: nat)
    requires step.Sense? || step.SerialCard? || step.Deliver? || step.Resume? || step.TryRelay?
    ensures Grows(s, Apply(c, s, step), id)
  {
    match step
    case Sense(text) =>
      if s.d.listener.Ready? {
        var signal := Compass.Classify(text);
        SignalKeeps(c, s.d, Listener, signal, s.book.exits, id);
        var (d', effect) := OnSignal(c, s.d, Listener, signal, s.book.exits);
        DaemonGrows(s, d', effect, s.redis.cursor, s.book.handled, id);
      }
    case SerialCard(card) =>
      if s.d.reader.Ready? {
        SignalKeeps(c, s.d, Reader, Compass.Card(card), s.book.exits, id);
        var (d', effect) := OnSignal(c, s.d, Reader, Compass.Card(card), s.book.exits);
        DaemonGrows(s, d', effect, s.redis.cursor, s.book.handled, id);
      }
    case Deliver =>
      if s.d.consumer.Ready? && s.redis.cursor < |s.redis.stream| {
        var command := s.redis.stream[s.redis.cursor];
        CommandKeeps(c, s.d, command, s.book.exits, id);
        var (d', effect) := OnCommand(c, s.d, command, s.book.exits);
        DaemonGrows(s, d', effect, s.redis.cursor + 1, s.book.handled + [s.redis.cursor], id);
      }
    case Resume(t) =>
      ResumeKeeps(c, s.d, t, s.now, s.book.exits, id);
      var (d', effect) := OnResume(c, s.d, t, s.now);
      DaemonGrows(s, d', effect, s.redis.cursor, s.book.handled, id);
    case TryRelay(ok) =>
      var (d', effect) := OnRelay(s.d, ok);
      DaemonGrows(s, d', effect, s.redis.cursor, s.book.handled, id);
  }

  lemma PublishTraces(c: Config, s: Lane, t: Task, id: nat)
    requires s.d.At(t).Telling?
    ensures Traces(Apply(c, s, Publish(t)), id) == Traces(s, id)
  {
    var e := s.d.At(t).event;
    var next := if e.kind.CardTap? then Told else Ready;
    PublishMoves(s.d, t, next, s.redis.channel, id);
    assert Apply(c, s, Publish(t))
        == s.(d := s.d.Put(t, next), redis := s.redis.(channel := s.redis.channel + [e]));
  }

  lemma PublishMoves(d: Daemon, t: Task, next: Pc, channel: seq<Event>, id: nat)
    requires d.At(t).Telling? && !next.Telling?
    ensures HeldBy(d.Put(t, next), id) + Carried(channel + [d.At(t).event], id)
         == HeldBy(d, id) + Carried(channel, id)
  {
    PutKeeps(d, d, t, next, id);
    CarriedAppend(channel, d.At(t).event, id);
  }

  lemma LossTraces(c: Config, s: Lane, at: nat, id: nat)
    requires at < |s.redis.channel|
    ensures Traces(Apply(c, s, EventLost(at)), id) <= Traces(s, id)
  {
    CarriedWithout(s.redis.channel, at, id);
    assert HeldBy(Apply(c, s, EventLost(at)).d, id) == HeldBy(s.d, id);
  }

  lemma TakeTraces(c: Config, s: Lane, id: nat)
    requires s.server.Waiting? && s.redis.channel != []
    ensures Traces(Apply(c, s, ServerTakes), id) == Traces(s, id)
  {
    TakeMoves(s.redis.channel, id);
    assert Apply(c, s, ServerTakes)
        == s.(server := Deciding(s.redis.channel[0]), redis := s.redis.(channel := s.redis.channel[1..]));
  }

  lemma TakeMoves(channel: seq<Event>, id: nat)
    requires channel != []
    ensures Carried(channel[1..], id) + One(channel[0].id == id) == Carried(channel, id)
  {
    CarriedWithout(channel, 0, id);
    assert channel[..0] + channel[1..] == channel[1..];
  }

  lemma ChannelStepTraces(c: Config, s: Lane, step: Step, id: nat)
    requires step.Publish? || step.EventLost? || step.ServerTakes?
    ensures Grows(s, Apply(c, s, step), id)
  {
    match step
    case Publish(t) => if s.d.At(t).Telling? { PublishTraces(c, s, t, id); }
    case EventLost(at) => if at < |s.redis.channel| { LossTraces(c, s, at, id); }
    case ServerTakes => if s.server.Waiting? && s.redis.channel != [] { TakeTraces(c, s, id); }
  }

  lemma DecideTraces(s: Lane, lookup: Lookup, sendOk: bool, id: nat)
    requires s.server.Deciding?
    ensures Grows(s, Decide(s, lookup, sendOk), id)
  {
    var e := s.server.event;
    var (b, s') := (s.book, Decide(s, lookup, sendOk));
    DecisionKeeps(s, lookup, sendOk);
    assert Carried(s'.redis.channel, id) == Carried(s.redis.channel, id);
    assert s'.book.exits == b.exits;
    OccurrencesAppend(b.txs, e.id, id);
    OccurrencesAppend(b.rejected, e.id, id);
    assert HeldBy(s'.d, id) == HeldBy(s.d, id);
  }

  /** A decision empties the server's hands and makes at most one record. */
  lemma DecisionKeeps(s: Lane, lookup: Lookup, sendOk: bool)
    requires s.server.Deciding?
    ensures var (s', b, id) := (Decide(s, lookup, sendOk), s.book, s.server.event.id);
      && !s'.server.Deciding? && s'.d == s.d && s'.redis.channel == s.redis.channel
      && (s'.book == b || s'.book == b.(txs := b.txs + [id]) || s'.book == b.(rejected := b.rejected + [id]))
  {
  }

  lemma OtherStepTraces(c: Config, s: Lane, step: Step, id: nat)
    requires step.RedisFails? || step.TimerFires? || step.Crash?
    ensures Grows(s, Apply(c, s, step), id)
  {
    match step
    case RedisFails(t) => PutKeeps(s.d, s.d, t, Ready, id);
    case TimerFires(_) =>
    case Crash =>
  }

  /** Ticks, operators and the server's other steps move no event, or drop the one in hand. */
  lemma IdleStepTraces(c: Config, s: Lane, step: Step, id: nat)
    requires step.Tick? || step.DeliveryLost? || step.ServerWarns? || step.ServerSends?
             || step.ServerCrash? || step.Operator?
    ensures Grows(s, Apply(c, s, step), id)
  {
    var s' := Apply(c, s, step);
    assert s'.d == s.d && s'.redis.channel == s.redis.channel && s'.book == s.book;
    assert s'.server == s.server || s'.server.Waiting?;
  }

  lemma StepTraces(c: Config, s: Lane, step: Step, id: nat)
    ensures Grows(s, Apply(c, s, step), id)
  {
    match step
    case Sense(_) => DaemonStepTraces(c, s, step, id);
    case SerialCard(_) => DaemonStepTraces(c, s, step, id);
    case Deliver => DaemonStepTraces(c, s, step, id);
    case Resume(_) => DaemonStepTraces(c, s, step, id);
    case TryRelay(_) => DaemonStepTraces(c, s, step, id);
    case Publish(_) => ChannelStepTraces(c, s, step, id);
    case EventLost(_) => ChannelStepTraces(c, s, step, id);
    case ServerTakes => ChannelStepTraces(c, s, step, id);
    case RedisFails(_) => OtherStepTraces(c, s, step, id);
    case TimerFires(_) => OtherStepTraces(c, s, step, id);
    case Crash => OtherStepTraces(c, s, step, id);
    case ServerDecides(lookup, sendOk) => if s.server.Deciding? { DecideTraces(s, lookup, sendOk, id); }
    case _ => IdleStepTraces(c, s, step, id);
  }

  lemma StepKeepsSingle(c: Config, s: Lane, step: Step)
    requires Single(s)
    ensures Single(Apply(c, s, step))
  {
    var s' := Apply(c, s, step);
    forall id: nat ensures Traces(s', id) <= One(id < s'.book.exits) {
      StepTraces(c, s, step, id);
    }
  }

  lemma {:induction false} RunKeepsSingle(c: Config, steps: seq<Step>)
    ensures Single(Exec(c, START, steps))
    decreases |steps|
  {
    if steps == [] {
    } else {
      var n := |steps| - 1;
      RunKeepsSingle(c, steps[..n]);
      StepKeepsSingle(c, Exec(c, START, steps[..n]), steps[n]);
    }
  }

  /** Every press or tap leads to at most one record, a transaction or a rejection, never both
      and never twice; and every record stems from a press or tap of the run. */
  lemma EventDecidedOnce(c: Config, steps: seq<Step>, id: nat)
    ensures var b := Exec(c, START, steps).book;
      && Occurrences(b.txs, id) + Occurrences(b.rejected, id) <= 1
      && (Occurrences(b.txs, id) + Occurrences(b.rejected, id) > 0 ==> id < b.exits)
  {
    RunKeepsSingle(c, steps);
    assert Traces(Exec(c, START, steps), id) <= One(id < Exec(c, START, steps).book.exits);
  }

  // ---------------------------------------------------------------- commands and openings

  ghost predicate Ascending(xs: seq<nat>) {
    forall i, j :: 0 <= i < j < |xs| ==> xs[i] < xs[j]
  }

  ghost predicate Below(xs: seq<nat>, bound: nat) {
    forall i :: 0 <= i < |xs| ==> xs[i] < bound
  }

  ghost predicate AllOpen(xs: seq<nat>, handled: seq<nat>, stream: seq<Command>) {
    forall i :: 0 <= i < |xs| ==> xs[i] in handled && xs[i] < |stream| && stream[xs[i]].Opens()
  }

  function Last(xs: seq<nat>): nat
    requires xs != []
  {
    xs[|xs| - 1]
  }

  /** Is the consumer inside an open handler whose write has not succeeded yet? */
  predicate Unopened(pc: Pc) { pc.Printing? || pc.Relay? }

  ghost predicate Orderly(s: Lane) {
    var (b, r) := (s.book, s.redis);
    && r.cursor <= |r.stream|
    && Ascending(b.handled) && Below(b.handled, r.cursor)
    && Ascending(b.opens) && AllOpen(b.opens, b.handled, r.stream)
    && (Unopened(s.d.consumer) ==>
          b.handled != [] && r.stream[Last(b.handled)].Opens() && Below(b.opens, Last(b.handled)))
    && (s.d.consumer.Fired? ==>
          b.opens != [] && b.handled != [] && Last(b.opens) == Last(b.handled))
    && b.openings + One(s.d.consumer.Fired?) <= |b.opens|
  }

  /** Every step but a delivery, an attempt or a resumption of the consumer leaves the pairing
      alone: it only adds to the stream, and the consumer stays where it is or is dropped from
      the open handler. */
  ghost predicate Aside(s: Lane, s': Lane) {
    && s.redis.stream <= s'.redis.stream && s.redis.cursor <= s'.redis.cursor <= |s'.redis.stream|
    && s'.book.handled == s.book.handled && s'.book.opens == s.book.opens
    && s'.book.openings == s.book.openings
    && (s'.d.consumer == s.d.consumer
        || (!Unopened(s'.d.consumer) && !s'.d.consumer.Fired?))
  }

  lemma AsideKeepsOrderly(s: Lane, s': Lane)
    requires Orderly(s) && Aside(s, s')
    ensures Orderly(s')
  {
    var (b, r, r') := (s.book, s.redis, s'.redis);
    forall i | 0 <= i < |b.opens| ensures r'.stream[b.opens[i]] == r.stream[b.opens[i]] { }
    if b.handled != [] {
      assert Last(b.handled) < r.cursor;
    }
  }

  lemma SignalsAside(c: Config, s: Lane, step: Step)
    requires Placed(s.d) && s.redis.cursor <= |s.redis.stream|
    requires step.Sense? || step.SerialCard? || (step.Resume? && !step.task.Consumer?)
    ensures Aside(s, Apply(c, s, step))
  {
  }

  lemma OthersAside(c: Config, s: Lane, step: Step)
    requires s.redis.cursor <= |s.redis.stream|
    requires !step.Sense? && !step.SerialCard? && !step.Resume? && !step.Deliver? && !step.TryRelay?
    ensures Aside(s, Apply(c, s, step))
  {
  }

  /** A handler starts unopened exactly for open commands. */
  lemma CommandStarts(c: Config, d: Daemon, command: Command, id: nat)
    requires d.consumer.Ready?
    ensures var (d', effect) := OnCommand(c, d, command, id);
      && !effect.RelayWritten? && !effect.OpeningEntered? && !d'.consumer.Fired?
      && (Unopened(d'.consumer) ==> command.Opens())
  {
    if command.InjectRss? {
      SignalStarts(c, d, Consumer, Compass.Classify(Compass.FramedText(command.signal)), id);
    }
  }

  lemma SignalStarts(c: Config, d: Daemon, t: Task, signal: Compass.Signal, id: nat)
    requires d.consumer.Ready?
    ensures var (d', effect) := OnSignal(c, d, t, signal, id);
      && !effect.RelayWritten? && !effect.OpeningEntered?
      && !d'.consumer.Fired? && !Unopened(d'.consumer)
  {
  }

  lemma HandledGrows(handled: seq<nat>, opens: seq<nat>, cursor: nat, stream: seq<Command>)
    requires Ascending(handled) && Below(handled, cursor) && AllOpen(opens, handled, stream)
    ensures Ascending(handled + [cursor]) && Below(handled + [cursor], cursor + 1)
    ensures AllOpen(opens, handled + [cursor], stream) && Below(opens, cursor)
    ensures Last(handled + [cursor]) == cursor
  {
    forall i | 0 <= i < |opens| ensures opens[i] in handled + [cursor] && opens[i] < cursor {
      assert opens[i] in handled;
      var k :| 0 <= k < |handled| && handled[k] == opens[i];
      assert (handled + [cursor])[k] == opens[i];
    }
  }

  lemma DeliverOrderly(c: Config, s: Lane)
    requires Orderly(s) && s.d.consumer.Ready? && s.redis.cursor < |s.redis.stream|
    ensures Orderly(Apply(c, s, Deliver))
  {
    CommandStarts(c, s.d, s.redis.stream[s.redis.cursor], s.book.exits);
    HandledGrows(s.book.handled, s.book.opens, s.redis.cursor, s.redis.stream);
    var (b, s') := (s.book, Apply(c, s, Deliver));
    assert s'.book.handled == b.handled + [s.redis.cursor];
    assert s'.book.opens == b.opens && s'.book.openings == b.openings;
  }

  lemma OpensGrow(opens: seq<nat>, handled: seq<nat>, stream: seq<Command>)
    requires handled != [] && Ascending(opens) && AllOpen(opens, handled, stream)
    requires Below(opens, Last(handled)) && Last(handled) < |stream| && stream[Last(handled)].Opens()
    ensures Ascending(opens + [Last(handled)]) && AllOpen(opens + [Last(handled)], handled, stream)
    ensures Last(opens + [Last(handled)]) == Last(handled)
  {
  }

  lemma RelayOrderly(c: Config, s: Lane, ok: bool)
    requires Orderly(s)
    ensures Orderly(Apply(c, s, TryRelay(ok)))
  {
    if s.d.consumer.Relay? && ok {
      OpensGrow(s.book.opens, s.book.handled, s.redis.stream);
      var s' := Apply(c, s, TryRelay(ok));
      assert s' == s.(d := s.d.(consumer := Fired), book := s'.book);
      assert s'.book == s.book.(opens := s.book.opens + [Last(s.book.handled)]);
    } else {
      var s' := Apply(c, s, TryRelay(ok));
      assert s'.book == s.book && s'.redis == s.redis;
    }
  }

  /** The consumer's resumptions: only after the write does OPENING come. */
  lemma ResumeStarts(c: Config, d: Daemon, now: int)
    ensures var (d', effect) := OnResume(c, d, Consumer, now);
      && !effect.RelayWritten? && (effect.OpeningEntered? <==> d.consumer.Fired?)
      && !d'.consumer.Fired? && (Unopened(d'.consumer) ==> Unopened(d.consumer))
  {
  }

  lemma ResumeOrderly(c: Config, s: Lane)
    requires Orderly(s)
    ensures Orderly(Apply(c, s, Resume(Consumer)))
  {
    ResumeStarts(c, s.d, s.now);
    var s' := Apply(c, s, Resume(Consumer));
    assert s'.redis == s.redis && s'.book.handled == s.book.handled && s'.book.opens == s.book.opens;
  }

  lemma StepKeepsOrderly(c: Config, s: Lane, step: Step)
    requires Orderly(s) && Placed(s.d)
    ensures Orderly(Apply(c, s, step))
  {
    if step == Deliver {
      if s.d.consumer.Ready? && s.redis.cursor < |s.redis.stream| { DeliverOrderly(c, s); }
    } else if step.TryRelay? {
      RelayOrderly(c, s, step.ok);
    } else if step == Resume(Consumer) {
      ResumeOrderly(c, s);
    } else {
      if step.Sense? || step.SerialCard? || step.Resume? { SignalsAside(c, s, step); }
      else { OthersAside(c, s, step); }
      AsideKeepsOrderly(s, Apply(c, s, step));
    }
  }

  lemma {:induction false} RunKeepsOrderly(c: Config, steps: seq<Step>)
    ensures Orderly(Exec(c, START, steps))
    decreases |steps|
  {
    if steps == [] {
    } else {
      var n := |steps| - 1;
      RunKeepsOrderly(c, steps[..n]);
      RunKeepsCounted(c, steps[..n]);
      StepKeepsOrderly(c, Exec(c, START, steps[..n]), steps[n]);
    }
  }

  /** Across all lives of the daemon: commands are handled in stream order and never twice,
      successful open writes belong to distinct open commands that were handled, and OPENING is
      entered no more often than such writes succeeded. */
  lemma CommandsPairWithOpenings(c: Config, steps: seq<Step>)
    ensures var s := Exec(c, START, steps);
      && Ascending(s.book.handled) && Below(s.book.handled, s.redis.cursor)
      && Ascending(s.book.opens) && AllOpen(s.book.opens, s.book.handled, s.redis.stream)
      && s.book.openings <= |s.book.opens|
  {
    RunKeepsOrderly(c, steps);
  }

  /** The step into OPENING comes right after the successful write of the command in hand. */
  lemma OpeningNeedsWrite(c: Config, steps: seq<Step>, step: Step)
    requires !Exec(c, START, steps).d.gate.Opening?
    requires Apply(c, Exec(c, START, steps), step).d.gate.Opening?
    ensures step == Resume(Consumer)
    ensures var b := Exec(c, START, steps).book;
      b.opens != [] && b.handled != [] && Last(b.opens) == Last(b.handled)
  {
    RunKeepsOrderly(c, steps);
    RunKeepsCounted(c, steps);
    EnteringOpening(c, Exec(c, START, steps), step);
  }

  lemma EnteringOpening(c: Config, s: Lane, step: Step)
    requires Placed(s.d) && !s.d.gate.Opening? && Apply(c, s, step).d.gate.Opening?
    ensures step == Resume(Consumer) && s.d.consumer.Fired?
  {
    match step
    case Sense(text) => SignalsNeverOpen(c, s.d, Listener, Compass.Classify(text), s.book.exits);
    case SerialCard(card) => SignalsNeverOpen(c, s.d, Reader, Compass.Card(card), s.book.exits);
    case Deliver =>
      if s.redis.cursor < |s.redis.stream| {
        CommandsNeverOpen(c, s.d, s.redis.stream[s.redis.cursor], s.book.exits);
      }
    case Resume(t) =>
      ResumingOpens(c, s.d, t, s.now);
      FiredIsConsumer(s.d, t);
    case _ => OthersNeverOpen(c, s, step);
  }

  lemma FiredIsConsumer(d: Daemon, t: Task)
    requires Placed(d) && d.At(t).Fired?
    ensures t == Consumer
  {
  }

  lemma CommandsNeverOpen(c: Config, d: Daemon, command: Command, id: nat)
    requires !d.gate.Opening?
    ensures !OnCommand(c, d, command, id).0.gate.Opening?
  {
    if command.InjectRss? {
      SignalsNeverOpen(c, d, Consumer, Compass.Classify(Compass.FramedText(command.signal)), id);
    }
  }

  lemma OthersNeverOpen(c: Config, s: Lane, step: Step)
    requires !s.d.gate.Opening?
    requires !step.Sense? && !step.SerialCard? && !step.Deliver? && !step.Resume?
    ensures !Apply(c, s, step).d.gate.Opening?
  {
  }

  lemma SignalsNeverOpen(c: Config, d: Daemon, t: Task, signal: Compass.Signal, id: nat)
    requires !d.gate.Opening?
    ensures !OnSignal(c, d, t, signal, id).0.gate.Opening?
  {
  }

  lemma ResumingOpens(c: Config, d: Daemon, t: Task, now: int)
    requires !d.gate.Opening?
    ensures OnResume(c, d, t, now).0.gate.Opening? ==> d.At(t).Fired?
  {
  }
}
