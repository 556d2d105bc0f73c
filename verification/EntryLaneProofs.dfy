/** What every run of the entry lane conserves: each entry transaction is covered by a vehicle
    detection, each departure from WAITING_INPUT by an arrival there. */
module EntryLaneProofs {
  import opened Text
  import opened EntryLane
  import Compass

  // ---------------------------------------------------------------- counting

  /** Each task is suspended only at points of handlers it runs. */
  predicate Placed(d: Daemon) {
    && (d.listener.Ready? || d.listener.Settling? || d.listener.Telling? || d.listener.Told?
        || d.listener.Helping?)
    && (d.reader.Ready? || d.reader.Settling? || d.reader.Telling? || d.reader.Told?
        || d.reader.Helping?)
  }

  function Rejects(stream: seq<Command>): nat {
    if stream == [] then 0
    else Rejects(stream[..|stream| - 1]) + if stream[|stream| - 1].RejectCard? then 1 else 0
  }

  function One(b: bool): nat { if b then 1 else 0 }

  function TellingNow(d: Daemon): nat {
    One(d.listener.Telling?) + One(d.reader.Telling?) + One(d.consumer.Telling?)
  }

  /** Credits: every departure from WAITING_INPUT used up one arrival there, every processed
      rejection one rejection of the stream, every record of the server one departure. */
  ghost predicate Counted(s: Lane) {
    && s.redis.cursor <= |s.redis.stream|
    && s.book.exits + One(s.d.gate.WaitingInput?) <= s.book.detections + s.book.rejectionsDone
    && s.book.rejectionsDone + One(s.d.consumer.Rejecting?)
       <= Rejects(s.redis.stream[..s.redis.cursor])
    && Rejects(s.redis.stream) == |s.book.rejected|
    && |s.book.txs| + |s.book.rejected| + |s.redis.channel| + One(s.server.Deciding?)
       + TellingNow(s.d) <= s.book.exits
    && (s.server.Committed? ==> !s.server.command.RejectCard?)
  }

  lemma {:induction false} RejectsConcat(a: seq<Command>, b: seq<Command>)
    ensures Rejects(a + b) == Rejects(a) + Rejects(b)
    decreases |b|
  {
    if b == [] {
      assert a + b == a;
    } else {
      var n := |b| - 1;
      assert (a + b)[..|a + b| - 1] == a + b[..n];
      RejectsConcat(a, b[..n]);
    }
  }

  lemma RejectsPrefix(stream: seq<Command>, n: nat)
    requires n <= |stream|
    ensures Rejects(stream[..n]) <= Rejects(stream)
  {
    RejectsConcat(stream[..n], stream[n..]);
    assert stream[..n] + stream[n..] == stream;
  }

  lemma RejectsNext(stream: seq<Command>, n: nat)
    requires n < |stream|
    ensures Rejects(stream[..n + 1]) == Rejects(stream[..n]) + One(stream[n].RejectCard?)
  {
    assert stream[..n + 1][..n] == stream[..n];
  }

  lemma RejectsOne(command: Command)
    ensures Rejects([command]) == One(command.RejectCard?)
  {
    assert [command][..0] == [];
  }

  lemma AppendKeepsCounted(s: Lane, s': Lane, commands: seq<Command>)
    requires Counted(s) && s' == s.(redis := Append(s.redis, commands))
    requires Rejects(commands) == 0
    ensures Counted(s')
  {
    RejectsConcat(s.redis.stream, commands);
    assert s'.redis.stream[..s.redis.cursor] == s.redis.stream[..s.redis.cursor];
  }

  /** All that the counts need to know about a daemon segment. */
  ghost predicate Moves(d: Daemon, d': Daemon, effect: Effect, rejections: nat) {
    && Placed(d')
    && One(d'.gate.WaitingInput?) + One(effect.Raised?)
       <= One(d.gate.WaitingInput?) + One(effect.Detected?) + One(effect.RejectionDone?)
    && TellingNow(d') <= TellingNow(d) + One(effect.Raised?)
    && One(d'.consumer.Rejecting?) + One(effect.RejectionDone?)
       <= One(d.consumer.Rejecting?) + rejections
  }

  /** A daemon segment that obeys `Moves` keeps the counts; `rejections` is how many rejections
      it took from the stream. */
  lemma MovesKeepCounted(s: Lane, d': Daemon, effect: Effect, cursor: nat, handled: seq<nat>)
    requires Placed(s.d) && Counted(s) && s.redis.cursor <= cursor <= |s.redis.stream|
    requires Rejects(s.redis.stream[..s.redis.cursor]) <= Rejects(s.redis.stream[..cursor])
    requires Moves(s.d, d', effect, Rejects(s.redis.stream[..cursor])
                                    - Rejects(s.redis.stream[..s.redis.cursor]))
    ensures Placed(d')
    ensures Counted(s.(d := d', redis := s.redis.(cursor := cursor),
                       book := Note(s.book.(handled := handled), effect)))
  {
  }

  /** One task moves to another suspension point, whatever else changes. */
  lemma PutMoves(d: Daemon, moved: Daemon, t: Task, pc: Pc)
    requires Placed(d)
    requires moved.listener == d.listener && moved.reader == d.reader && moved.consumer == d.consumer
    requires t.Consumer? || pc.Ready? || pc.Settling? || pc.Telling? || pc.Told? || pc.Helping?
    ensures var d' := moved.Put(t, pc);
      && Placed(d') && d'.gate == moved.gate
      && TellingNow(d') + One(d.At(t).Telling?) == TellingNow(d) + One(pc.Telling?)
      && (d'.consumer.Rejecting? <==> if t.Consumer? then pc.Rejecting? else d.consumer.Rejecting?)
  {
    match t
    case Listener =>
    case Reader =>
    case Consumer =>
  }

  lemma SignalMoves(c: Config, d: Daemon, t: Task, signal: Compass.Signal, id: nat)
    requires Placed(d) && d.At(t).Ready?
    ensures Moves(d, OnSignal(c, d, t, signal, id).0, OnSignal(c, d, t, signal, id).1, 0)
  {
    match signal
    case In1On => ArrivalMoves(c, d, t, id);
    case In1Off => LeavingMoves(c, d, t, signal, id);
    case In2On => InputMoves(c, d, t, signal, id);
    case In3On => InputMoves(c, d, t, signal, id);
    case In4On => LeavingMoves(c, d, t, signal, id);
    case In4Off => LeavingMoves(c, d, t, signal, id);
    case Card(number) => InputMoves(c, d, t, signal, id);
    case Ignored =>
  }

  /** Buttons and cards act only while input is awaited. */
  lemma InputMoves(c: Config, d: Daemon, t: Task, signal: Compass.Signal, id: nat)
    requires Placed(d) && d.At(t).Ready? && (signal.In2On? || signal.In3On? || signal.Card?)
    ensures Moves(d, OnSignal(c, d, t, signal, id).0, OnSignal(c, d, t, signal, id).1, 0)
  {
    match signal
    case In2On => RaisingMoves(d, t, Event(id, TicketButton), Processing);
    case In3On => PutMoves(d, d, t, Helping);
    case Card(number) => RaisingMoves(d, t, Event(id, CardTap(number)), Validating);
  }

  /** The vehicle sensor puts an idle gate to WAITING_INPUT, as a detection. */
  lemma ArrivalMoves(c: Config, d: Daemon, t: Task, id: nat)
    requires Placed(d) && d.At(t).Ready?
    ensures Moves(d, OnSignal(c, d, t, Compass.In1On, id).0, OnSignal(c, d, t, Compass.In1On, id).1, 0)
  {
    PutMoves(d, d.(in1On := true).(gate := WaitingInput), t, Settling);
  }

  /** Sensors that end a stay put the gate to IDLE. */
  lemma LeavingMoves(c: Config, d: Daemon, t: Task, signal: Compass.Signal, id: nat)
    requires Placed(d) && d.At(t).Ready? && (signal.In1Off? || signal.In4On? || signal.In4Off?)
    ensures Moves(d, OnSignal(c, d, t, signal, id).0, OnSignal(c, d, t, signal, id).1, 0)
  {
    PutMoves(d, d.(gate := Idle), t, Settling);
    if signal.In1Off? { PutMoves(d, d.(in1On := false).(gate := Idle), t, Settling); }
  }

  /** A press or tap takes the gate out of WAITING_INPUT with an event. */
  lemma RaisingMoves(d: Daemon, t: Task, e: Event, gate: GateState)
    requires Placed(d) && d.At(t).Ready? && !gate.WaitingInput?
    ensures d.gate.WaitingInput? ==> Moves(d, d.(gate := gate).Put(t, Telling(e)), Raised, 0)
    ensures Moves(d, d, Nothing, 0)
  {
    PutMoves(d, d.(gate := gate), t, Telling(e));
  }

  lemma TimersStarted(c: Config, d: Daemon, t: Task, now: int)
    requires Placed(d) && (d.At(t).Told? || d.At(t).Opened?)
    ensures Moves(d, OnResume(c, d, t, now).0, Nothing, 0) && OnResume(c, d, t, now).1.Nothing?
  {
    var timer := if d.At(t).Told? then ValidatingTimer(now + c.timeout) else PassTimer(now + c.timeout);
    var spawned := d.(timers := d.timers[d.nextTimer := timer], nextTimer := d.nextTimer + 1);
    PutMoves(d, if d.At(t).Told? then spawned.(validating := Some(d.nextTimer))
                else spawned.(openedAt := now), t, Ready);
  }

  lemma ResumeMoves(c: Config, d: Daemon, t: Task, now: int)
    requires Placed(d)
    ensures Moves(d, OnResume(c, d, t, now).0, OnResume(c, d, t, now).1, 0)
  {
    match d.At(t)
    case Settling => PutMoves(d, d, t, Ready);
    case Told => TimersStarted(c, d, t, now);
    case Helping => PutMoves(d, d.(gate := Idle), t, Settling);
    case Opened => TimersStarted(c, d, t, now);
    case Telling(_) =>
    case _ => ConsumerMoves(c, d, t, now);
  }

  lemma ConsumerMoves(c: Config, d: Daemon, t: Task, now: int)
    requires Placed(d)
    requires d.At(t).Printing? || d.At(t).Fired? || d.At(t).Rejecting? || d.At(t).Ready? || d.At(t).Relay?
    ensures Moves(d, OnResume(c, d, t, now).0, OnResume(c, d, t, now).1, 0)
  {
    match d.At(t)
    case Printing => PutMoves(d, d, t, Relay(0));
    case Fired => PutMoves(d, d.(gate := Opening), t, Opened);
    case Rejecting => PutMoves(d, d.(gate := WaitingInput), t, Settling);
    case _ =>
  }

  lemma CommandMoves(c: Config, d: Daemon, command: Command, id: nat)
    requires Placed(d) && d.consumer.Ready?
    ensures var (d', effect) := OnCommand(c, d, command, id);
      Moves(d, d', effect, One(command.RejectCard?))
  {
    if command.InjectRss? {
      SignalMoves(c, d, Consumer, Compass.Classify(Compass.FramedText(command.signal)), id);
    }
  }

  lemma DaemonStepsKeepCounted(c: Config, s: Lane, step: Step)
    requires Placed(s.d) && Counted(s)
    requires step.Sense? || step.SerialCard? || step.Resume?
    ensures Placed(Apply(c, s, step).d) && Counted(Apply(c, s, step))
  {
    var s' := Apply(c, s, step);
    if s' != s {
      var result := match step
        case Sense(text) => OnSignal(c, s.d, Listener, Compass.Classify(text), s.book.exits)
        case SerialCard(card) => OnSignal(c, s.d, Reader, Compass.Card(card), s.book.exits)
        case Resume(t) => OnResume(c, s.d, t, s.now);
      assert s' == After(s, result);
      match step {
        case Sense(text) =>
          SignalMoves(c, s.d, Listener, Compass.Classify(text), s.book.exits);
        case SerialCard(card) => SignalMoves(c, s.d, Reader, Compass.Card(card), s.book.exits);
        case Resume(t) => ResumeMoves(c, s.d, t, s.now);
      }
      MovesKeepCounted(s, result.0, result.1, s.redis.cursor, s.book.handled);
    }
  }

  lemma RelayKeepsCounted(c: Config, s: Lane, ok: bool)
    requires Placed(s.d) && Counted(s)
    ensures Placed(Apply(c, s, TryRelay(ok)).d) && Counted(Apply(c, s, TryRelay(ok)))
  {
    RelayMoves(s.d, ok);
    var (d', effect) := OnRelay(s.d, ok);
    MovesKeepCounted(s, d', effect, s.redis.cursor, s.book.handled);
  }

  /** A segment without effect only replaces the daemon. */
  lemma QuietMoveKeepsCounted(s: Lane, d': Daemon)
    requires Placed(s.d) && Counted(s) && Moves(s.d, d', Nothing, 0)
    ensures Placed(d') && Counted(s.(d := d'))
  {
    MovesKeepCounted(s, d', Nothing, s.redis.cursor, s.book.handled);
  }

  lemma OtherDaemonStepsKeepCounted(c: Config, s: Lane, step: Step)
    requires Placed(s.d) && Counted(s)
    requires step.TryRelay? || step.RedisFails? || step.TimerFires? || step.Crash?
    ensures Placed(Apply(c, s, step).d) && Counted(Apply(c, s, step))
  {
    match step
    case TryRelay(ok) => RelayKeepsCounted(c, s, ok);
    case RedisFails(t) =>
      FailureMoves(s.d, t);
      QuietMoveKeepsCounted(s, OnRedisFailure(s.d, t));
    case TimerFires(timer) =>
      TimerMoves(s.d, timer, s.now);
      QuietMoveKeepsCounted(s, OnTimer(s.d, timer, s.now));
    case Crash =>
      CrashMoves(s.d);
      QuietMoveKeepsCounted(s, NEW_LIFE);
  }

  lemma RestMoves(d: Daemon, d': Daemon)
    requires d'.gate.Idle? && d'.listener.Ready? && d'.reader.Ready? && d'.consumer.Ready?
    ensures Moves(d, d', Nothing, 0)
  {
  }

  lemma CrashMoves(d: Daemon)
    ensures Moves(d, NEW_LIFE, Nothing, 0)
  {
    RestMoves(d, NEW_LIFE);
  }

  lemma RelayMoves(d: Daemon, ok: bool)
    requires Placed(d)
    ensures Moves(d, OnRelay(d, ok).0, OnRelay(d, ok).1, 0)
  {
  }

  lemma TimerMoves(d: Daemon, timer: nat, now: int)
    requires Placed(d)
    ensures Moves(d, OnTimer(d, timer, now), Nothing, 0)
  {
  }

  lemma FailureMoves(d: Daemon, t: Task)
    requires Placed(d)
    ensures Moves(d, OnRedisFailure(d, t), Nothing, 0)
  {
    PutMoves(d, d, t, Ready);
  }

  lemma DeliverKeepsCounted(c: Config, s: Lane)
    requires Placed(s.d) && Counted(s)
    requires s.d.consumer.Ready? && s.redis.cursor < |s.redis.stream|
    ensures Placed(Apply(c, s, Deliver).d) && Counted(Apply(c, s, Deliver))
  {
    var command := s.redis.stream[s.redis.cursor];
    var (d', effect) := OnCommand(c, s.d, command, s.book.exits);
    RejectsNext(s.redis.stream, s.redis.cursor);
    CommandMoves(c, s.d, command, s.book.exits);
    MovesKeepCounted(s, d', effect, s.redis.cursor + 1, s.book.handled + [s.redis.cursor]);
  }

  lemma TransportKeepsCounted(c: Config, s: Lane, step: Step)
    requires Placed(s.d) && Counted(s)
    requires step.Tick? || step.DeliveryLost? || step.Publish? || step.EventLost?
    ensures Placed(Apply(c, s, step).d) && Counted(Apply(c, s, step))
  {
    if step.DeliveryLost? && s.redis.cursor < |s.redis.stream| {
      RejectsNext(s.redis.stream, s.redis.cursor);
    }
  }

  lemma DecisionKeepsCounted(s: Lane, lookup: Lookup, sendOk: bool)
    requires Placed(s.d) && Counted(s)
    ensures Placed(Decide(s, lookup, sendOk).d) && Counted(Decide(s, lookup, sendOk))
  {
    var s' := Decide(s, lookup, sendOk);
    if s'.redis == s.redis {
    } else {
      RejectionKeepsCounted(s, s');
    }
  }

  /** The server answers its event by a rejection. */
  lemma RejectionKeepsCounted(s: Lane, s': Lane)
    requires Placed(s.d) && Counted(s) && s.server.Deciding?
    requires s' == s.(server := Waiting, redis := Append(s.redis, [RejectCard]),
                      book := s.book.(rejected := s.book.rejected + [s.server.event.id]))
    ensures Counted(s')
  {
    RejectsOne(RejectCard);
    RejectsConcat(s.redis.stream, [RejectCard]);
    assert s'.redis.stream[..s.redis.cursor] == s.redis.stream[..s.redis.cursor];
  }

  lemma ServerKeepsCounted(c: Config, s: Lane, step: Step)
    requires Placed(s.d) && Counted(s)
    requires step.ServerTakes? || step.ServerWarns? || step.ServerSends? || step.ServerCrash?
          || step.Operator?
    ensures Placed(Apply(c, s, step).d) && Counted(Apply(c, s, step))
  {
    var s' := Apply(c, s, step);
    if step.ServerWarns? && s.server.Deciding? {
      RejectsOne(Other);
      assert [Other, Other] == [Other] + [Other];
      RejectsConcat([Other], [Other]);
      AppendKeepsCounted(s, s', [Other, Other]);
    } else if step.ServerSends? && s.server.Committed? && step.sendOk {
      RejectsOne(s.server.command);
      AppendKeepsCounted(s.(server := Waiting), s', [s.server.command]);
    } else if step.Operator? && !step.command.RejectCard? {
      RejectsOne(step.command);
      AppendKeepsCounted(s, s', [step.command]);
    }
  }

  lemma StepKeepsCounted(c: Config, s: Lane, step: Step)
    requires Placed(s.d) && Counted(s)
    ensures Placed(Apply(c, s, step).d) && Counted(Apply(c, s, step))
  {
    if step.Sense? || step.SerialCard? || step.Resume? {
      DaemonStepsKeepCounted(c, s, step);
    } else if step.TryRelay? || step.RedisFails? || step.TimerFires? || step.Crash? {
      OtherDaemonStepsKeepCounted(c, s, step);
    } else if step.Deliver? {
      if s.d.consumer.Ready? && s.redis.cursor < |s.redis.stream| { DeliverKeepsCounted(c, s); }
    } else if step.ServerDecides? {
      DecisionKeepsCounted(s, step.lookup, step.sendOk);
    } else if step.Tick? || step.DeliveryLost? || step.Publish? || step.EventLost? {
      TransportKeepsCounted(c, s, step);
    } else {
      ServerKeepsCounted(c, s, step);
    }
  }

  lemma {:induction false} RunKeepsCounted(c: Config, steps: seq<Step>)
    ensures Placed(Exec(c, START, steps).d) && Counted(Exec(c, START, steps))
    decreases |steps|
  {
    if steps == [] {
      EmptyCounted(START);
    } else {
      var n := |steps| - 1;
      RunKeepsCounted(c, steps[..n]);
      StepKeepsCounted(c, Exec(c, START, steps[..n]), steps[n]);
    }
  }

  lemma EmptyCounted(s: Lane)
    requires s.d.listener.Ready? && s.d.reader.Ready? && s.d.consumer.Ready? && s.d.gate.Idle?
    requires s.redis.stream == [] && s.redis.channel == [] && s.redis.cursor == 0 && s.server.Waiting?
    requires s.book.txs == [] && s.book.rejected == []
    requires s.book.exits == 0 && s.book.rejectionsDone == 0
    ensures Placed(s.d) && Counted(s)
  {
    assert s.redis.stream[..0] == [];
  }

  /** In every run, with events and commands lost and with crashes and restarts, no more entry
      transactions are created than vehicles were detected. */
  lemma EntryConservation(c: Config, steps: seq<Step>)
    ensures var b := Exec(c, START, steps).book;
      && |b.txs| <= b.detections
      && |b.txs| + |b.rejected| <= b.exits <= b.detections + b.rejectionsDone
      && b.rejectionsDone <= |b.rejected|
  {
    RunKeepsCounted(c, steps);
    var s := Exec(c, START, steps);
    RejectsPrefix(s.redis.stream, s.redis.cursor);
  }
}
