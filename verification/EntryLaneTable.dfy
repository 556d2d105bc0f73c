/** The entry lane as a table: which event gets which answer, and exactly which steps move the gate
    from one state to another. */
module EntryLaneTable {
  import opened Text
  import opened EntryLane
  import opened EntryLaneProofs
  import Compass

  // ---------------------------------------------------------------- the server's answers

  /** What the checks on a card come to. */
  predicate Admitted(member: Option<Member>, today: int, unclosed: bool) {
    && member.Some? && member.value.active && !unclosed
    && (member.value.validUntil.None? || today <= member.value.validUntil.value)
  }

  /** A card is let in exactly if its member exists, is active, has not expired and has no unclosed
      transaction; otherwise one rejection is sent and recorded, unless sending fails. */
  lemma CardDecision(c: Config, s: Lane, member: Option<Member>, today: int, unclosed: bool, sendOk: bool)
    requires s.server.Deciding? && s.server.event.kind.CardTap?
    ensures var s' := Apply(c, s, ServerDecides(Found(member, today, unclosed), sendOk));
      var (b, id) := (s.book, s.server.event.id);
      if Admitted(member, today, unclosed) then
        s' == s.(server := Committed(OpenGate), book := b.(txs := b.txs + [id]))
      else if sendOk then
        s' == s.(server := Waiting, book := b.(rejected := b.rejected + [id]),
                 redis := s.redis.(stream := s.redis.stream + [RejectCard]))
      else s' == s.(server := Waiting)
  {
  }

  /** A pressed button always gets a transaction, and a ticket is printed before the gate opens. */
  lemma ButtonDecision(c: Config, s: Lane, member: Option<Member>, today: int, unclosed: bool, sendOk: bool)
    requires s.server.Deciding? && s.server.event.kind.TicketButton?
    ensures Apply(c, s, ServerDecides(Found(member, today, unclosed), sendOk))
         == s.(server := Committed(PrintTicketThenOpen),
               book := s.book.(txs := s.book.txs + [s.server.event.id]))
  {
  }

  /** Without a gate or a database an event is dropped without a trace. */
  lemma NoDecision(c: Config, s: Lane, lookup: Lookup, sendOk: bool)
    requires s.server.Deciding? && !lookup.Found?
    ensures Apply(c, s, ServerDecides(lookup, sendOk)) == s.(server := Waiting)
  {
  }

  /** From the channel to the stream: the event taken is the oldest one, and once its transaction is
      committed the command goes out last in the stream, if sending succeeds, and once at most. */
  lemma ServerHandsOn(c: Config, s: Lane, sendOk: bool)
    ensures s.server.Waiting? && s.redis.channel != [] ==>
      Apply(c, s, ServerTakes)
      == s.(server := Deciding(s.redis.channel[0]), redis := s.redis.(channel := s.redis.channel[1..]))
    ensures s.server.Committed? ==>
      var s' := Apply(c, s, ServerSends(sendOk));
      && s'.server.Waiting? && s' == s.(server := s'.server, redis := s'.redis)
      && s'.redis == s.redis.(stream := s.redis.stream + if sendOk then [s.server.command] else [])
    ensures !s.server.Committed? ==> Apply(c, s, ServerSends(sendOk)) == s
  {
    assert s.redis.stream + [] == s.redis.stream;
  }

  /** What can be lost: an event on its way, a command delivered to nobody, the daemon's state with
      everything under way, and what the server was about to do. Nothing else is touched. */
  lemma Mishaps(c: Config, s: Lane, at: nat)
    ensures at < |s.redis.channel| ==>
      Apply(c, s, EventLost(at)).redis == s.redis.(channel := s.redis.channel[..at] + s.redis.channel[at + 1..])
    ensures s.redis.cursor < |s.redis.stream| ==>
      Apply(c, s, DeliveryLost) == s.(redis := s.redis.(cursor := s.redis.cursor + 1))
    ensures Apply(c, s, Crash) == s.(d := Daemon(Idle, false, Ready, Ready, Ready, map[], 0, None, 0))
    ensures Apply(c, s, ServerCrash) == s.(server := Waiting)
  {
  }

  /** Only time itself moves the clock, and an operator may send any command but a rejection. */
  lemma ClockAndOperator(c: Config, s: Lane, dt: nat, command: Command)
    ensures Apply(c, s, Tick(dt)) == s.(now := s.now + dt)
    ensures !command.RejectCard? ==>
      Apply(c, s, Operator(command)) == s.(redis := s.redis.(stream := s.redis.stream + [command]))
  {
  }

  // ---------------------------------------------------------------- the gate

  /** The sensor signal or card that a step hands to a handler of the daemon. */
  function Handed(s: Lane, step: Step): Compass.Signal {
    match step
    case Sense(text) => if s.d.listener.Ready? then Compass.Classify(text) else Compass.Ignored
    case SerialCard(card) => if s.d.reader.Ready? && card != "" then Compass.Card(card) else Compass.Ignored
    case Deliver =>
      if s.d.consumer.Ready? && s.redis.cursor < |s.redis.stream| && s.redis.stream[s.redis.cursor].InjectRss?
      then Compass.Classify(Compass.FramedText(s.redis.stream[s.redis.cursor].signal))
      else Compass.Ignored
    case _ => Compass.Ignored
  }

  /** The task whose handler gets it. */
  function Handler(step: Step): Task {
    match step
    case SerialCard(_) => Reader
    case Deliver => Consumer
    case _ => Listener
  }

  predicate IsSignal(s: Lane, step: Step) {
    || step.Sense? || step.SerialCard?
    || (step.Deliver? && s.d.consumer.Ready? && s.redis.cursor < |s.redis.stream|
        && s.redis.stream[s.redis.cursor].InjectRss?)
  }

  lemma SignalStep(c: Config, s: Lane, step: Step)
    ensures IsSignal(s, step) ==>
      Apply(c, s, step).d == OnSignal(c, s.d, Handler(step), Handed(s, step), s.book.exits).0
    ensures !IsSignal(s, step) ==> Handed(s, step).Ignored?
  {
  }

  predicate TakesUp(s: Lane, step: Step, command: Command) {
    && step == Deliver && s.d.consumer.Ready? && s.redis.cursor < |s.redis.stream|
    && s.redis.stream[s.redis.cursor] == command
  }

  predicate Wakes(s: Lane, step: Step) {
    && step.TimerFires? && step.timer in s.d.timers
    && match s.d.timers[step.timer]
       case PassTimer(deadline) => deadline <= s.now && s.d.gate.Opening?
       case ValidatingTimer(deadline) => deadline <= s.now && s.d.gate.Validating?
  }

  /** The gate waits for input after a vehicle came to an idle lane, or after a rejection. */
  lemma EntersWaiting(c: Config, s: Lane, step: Step)
    requires !s.d.gate.WaitingInput?
    ensures Apply(c, s, step).d.gate.WaitingInput?
       <==> (s.d.gate.Idle? && Handed(s, step).In1On?)
            || (step.Resume? && s.d.At(step.task).Rejecting?)
  {
    SignalStep(c, s, step);
    if IsSignal(s, step) {
      WaitingBySignal(c, s.d, Handler(step), Handed(s, step), s.book.exits);
    } else {
      WaitingOtherwise(c, s, step);
    }
  }

  lemma WaitingBySignal(c: Config, d: Daemon, t: Task, signal: Compass.Signal, id: nat)
    requires !d.gate.WaitingInput?
    ensures OnSignal(c, d, t, signal, id).0.gate.WaitingInput? <==> d.gate.Idle? && signal.In1On?
  {
  }

  lemma WaitingOtherwise(c: Config, s: Lane, step: Step)
    requires !IsSignal(s, step)
    requires !s.d.gate.WaitingInput?
    ensures Apply(c, s, step).d.gate.WaitingInput? <==> step.Resume? && s.d.At(step.task).Rejecting?
  {
  }

  /** A ticket is asked for exactly by the button pressed while input is awaited and a vehicle stands
      on its sensor. */
  lemma EntersProcessing(c: Config, s: Lane, step: Step)
    requires !s.d.gate.Processing?
    ensures var d' := Apply(c, s, step).d;
      && (d'.gate.Processing? <==> s.d.gate.WaitingInput? && s.d.in1On && Handed(s, step).In2On?)
      && (d'.gate.Processing? ==> d'.At(Handler(step)) == Telling(Event(s.book.exits, TicketButton)))
  {
    SignalStep(c, s, step);
    if IsSignal(s, step) {
      ProcessingBySignal(c, s.d, Handler(step), Handed(s, step), s.book.exits);
    } else {
      ProcessingOtherwise(c, s, step);
    }
  }

  lemma ProcessingBySignal(c: Config, d: Daemon, t: Task, signal: Compass.Signal, id: nat)
    requires !d.gate.Processing?
    ensures var d' := OnSignal(c, d, t, signal, id).0;
      && (d'.gate.Processing? <==> d.gate.WaitingInput? && d.in1On && signal.In2On?)
      && (d'.gate.Processing? ==> d'.At(t) == Telling(Event(id, TicketButton)))
  {
  }

  lemma ProcessingOtherwise(c: Config, s: Lane, step: Step)
    requires !IsSignal(s, step)
    requires !s.d.gate.Processing?
    ensures !Apply(c, s, step).d.gate.Processing?
  {
  }

  /** A card is put to the server exactly if input is awaited and the gate has a reader, and it is that
      card's number. */
  lemma EntersValidating(c: Config, s: Lane, step: Step)
    requires !s.d.gate.Validating?
    ensures var (d', signal) := (Apply(c, s, step).d, Handed(s, step));
      && (d'.gate.Validating? <==> s.d.gate.WaitingInput? && c.hasRfid && signal.Card?)
      && (d'.gate.Validating? ==>
            signal.Card? && d'.At(Handler(step)) == Telling(Event(s.book.exits, CardTap(signal.number))))
  {
    SignalStep(c, s, step);
    if IsSignal(s, step) {
      ValidatingBySignal(c, s.d, Handler(step), Handed(s, step), s.book.exits);
    } else {
      ValidatingOtherwise(c, s, step);
    }
  }

  lemma ValidatingBySignal(c: Config, d: Daemon, t: Task, signal: Compass.Signal, id: nat)
    requires !d.gate.Validating?
    ensures var d' := OnSignal(c, d, t, signal, id).0;
      && (d'.gate.Validating? <==> d.gate.WaitingInput? && c.hasRfid && signal.Card?)
      && (d'.gate.Validating? ==>
            signal.Card? && d'.At(t) == Telling(Event(id, CardTap(signal.number))))
  {
  }

  lemma ValidatingOtherwise(c: Config, s: Lane, step: Step)
    requires !IsSignal(s, step)
    requires !s.d.gate.Validating?
    ensures !Apply(c, s, step).d.gate.Validating?
  {
  }

  lemma EntersOpening(c: Config, s: Lane, step: Step)
    requires !s.d.gate.Opening?
    ensures Apply(c, s, step).d.gate.Opening? <==> step.Resume? && s.d.At(step.task).Fired?
  {
    SignalStep(c, s, step);
    if IsSignal(s, step) {
      OpeningBySignal(c, s.d, Handler(step), Handed(s, step), s.book.exits);
    } else {
      OpeningOtherwise(c, s, step);
    }
  }

  lemma OpeningBySignal(c: Config, d: Daemon, t: Task, signal: Compass.Signal, id: nat)
    requires !d.gate.Opening?
    ensures !OnSignal(c, d, t, signal, id).0.gate.Opening?
  {
  }

  lemma OpeningOtherwise(c: Config, s: Lane, step: Step)
    requires !IsSignal(s, step)
    requires !s.d.gate.Opening?
    ensures Apply(c, s, step).d.gate.Opening? <==> step.Resume? && s.d.At(step.task).Fired?
  {
  }

  /** The gate falls idle when the vehicle backs up or passes, on the reset sensor, at the end of the
      help pause or of a timer in its own state, by an operator's reset, and in a restart. */
  lemma EntersIdle(c: Config, s: Lane, step: Step)
    requires !s.d.gate.Idle?
    ensures var signal := Handed(s, step);
      Apply(c, s, step).d.gate.Idle?
      <==> ((s.d.gate.WaitingInput? || s.d.gate.Opening?) && (signal.In1Off? || signal.In4On?))
           || (s.d.gate.Opening? && signal.In4Off?)
           || (step.Resume? && s.d.At(step.task).Helping?)
           || Wakes(s, step) || TakesUp(s, step, ResetGate) || step.Crash?
  {
    SignalStep(c, s, step);
    if IsSignal(s, step) {
      IdleBySignal(c, s.d, Handler(step), Handed(s, step), s.book.exits);
    } else {
      IdleOtherwise(c, s, step);
    }
  }

  lemma IdleBySignal(c: Config, d: Daemon, t: Task, signal: Compass.Signal, id: nat)
    requires !d.gate.Idle?
    ensures OnSignal(c, d, t, signal, id).0.gate.Idle?
       <==> ((d.gate.WaitingInput? || d.gate.Opening?) && (signal.In1Off? || signal.In4On?))
            || (d.gate.Opening? && signal.In4Off?)
  {
  }

  lemma IdleOtherwise(c: Config, s: Lane, step: Step)
    requires !IsSignal(s, step)
    requires !s.d.gate.Idle?
    ensures Apply(c, s, step).d.gate.Idle?
       <==> (step.Resume? && s.d.At(step.task).Helping?)
            || Wakes(s, step) || TakesUp(s, step, ResetGate) || step.Crash?
  {
  }

  /** The help pause begins with the help button while input is awaited. */
  lemma EntersHelping(c: Config, s: Lane, step: Step, t: Task)
    requires !s.d.At(t).Helping?
    ensures Apply(c, s, step).d.At(t).Helping?
       <==> s.d.gate.WaitingInput? && Handed(s, step).In3On? && t == Handler(step)
  {
    SignalStep(c, s, step);
    if IsSignal(s, step) {
      HelpingBySignal(c, s.d, Handler(step), Handed(s, step), s.book.exits, t);
    } else {
      HelpingOtherwise(c, s, step, t);
    }
  }

  lemma HelpingBySignal(c: Config, d: Daemon, t: Task, signal: Compass.Signal, id: nat, o: Task)
    requires !d.At(o).Helping?
    ensures OnSignal(c, d, t, signal, id).0.At(o).Helping?
       <==> d.gate.WaitingInput? && signal.In3On? && o == t
  {
  }

  lemma HelpingOtherwise(c: Config, s: Lane, step: Step, o: Task)
    requires !IsSignal(s, step)
    requires !s.d.At(o).Helping?
    ensures !Apply(c, s, step).d.At(o).Helping?
  {
  }

  /** The daemon's idea of the vehicle sensor is the last signal it was handed in this life. */
  lemma VehicleSensor(c: Config, s: Lane, step: Step)
    ensures Apply(c, s, step).d.in1On
         == if Handed(s, step).In1On? then true
            else if Handed(s, step).In1Off? || step.Crash? then false
            else s.d.in1On
  {
    SignalStep(c, s, step);
    if IsSignal(s, step) {
      SensorBySignal(c, s.d, Handler(step), Handed(s, step), s.book.exits);
    } else {
      SensorOtherwise(c, s, step);
    }
  }

  lemma SensorBySignal(c: Config, d: Daemon, t: Task, signal: Compass.Signal, id: nat)
    ensures OnSignal(c, d, t, signal, id).0.in1On
         == if signal.In1On? then true else if signal.In1Off? then false else d.in1On
  {
  }

  lemma SensorOtherwise(c: Config, s: Lane, step: Step)
    requires !IsSignal(s, step)
    ensures Apply(c, s, step).d.in1On == if step.Crash? then false else s.d.in1On
  {
  }

  /** Where a command's handler goes: the relay, at once or after printing, and nowhere else. */
  lemma CommandStarted(c: Config, s: Lane)
    requires s.d.consumer.Ready? && s.redis.cursor < |s.redis.stream|
    ensures var s' := Apply(c, s, Deliver);
      && s'.redis == s.redis.(cursor := s.redis.cursor + 1)
      && s'.book.handled == s.book.handled + [s.redis.cursor]
      && Started(s.d, s'.d, s.redis.stream[s.redis.cursor])
  {
    CommandTaken(c, s);
    StartedBy(c, s.d, s.redis.stream[s.redis.cursor], s.book.exits);
  }

  predicate Started(d: Daemon, d': Daemon, command: Command) {
    && (d'.consumer == Relay(0) <==> command.OpenGate?) && (d'.consumer.Relay? ==> d'.consumer.failures == 0)
    && (d'.consumer.Printing? <==> command.PrintTicketThenOpen?)
    && (d'.consumer.Rejecting? <==> command.RejectCard?)
    && (command.ResetGate? || command.Other? ==> d'.consumer.Settling?)
    && d'.timers == (if command.RejectCard? && d.validating.Some? then d.timers - {d.validating.value}
                     else d.timers)
    && (!command.ResetGate? && !command.InjectRss? ==> d'.gate == d.gate)
  }

  lemma CommandTaken(c: Config, s: Lane)
    requires s.d.consumer.Ready? && s.redis.cursor < |s.redis.stream|
    ensures var (s', result) := (Apply(c, s, Deliver), OnCommand(c, s.d, s.redis.stream[s.redis.cursor], s.book.exits));
      && s'.d == result.0 && s'.redis == s.redis.(cursor := s.redis.cursor + 1)
      && s'.book.handled == s.book.handled + [s.redis.cursor]
  {
  }

  lemma StartedBy(c: Config, d: Daemon, command: Command, id: nat)
    requires d.consumer.Ready?
    ensures Started(d, OnCommand(c, d, command, id).0, command)
  {
    if command.InjectRss? {
      var signal := Compass.Classify(Compass.FramedText(command.signal));
      HandlerBySignal(c, d, Consumer, signal, id, Consumer);
      TimersBySignal(c, d, Consumer, signal, id);
    }
  }

  /** Four attempts may fail and be followed by another; the fifth failure ends the handler. */
  lemma RelayAttempted(c: Config, s: Lane, ok: bool)
    requires s.d.consumer.Relay?
    ensures var (n, d') := (s.d.consumer.failures, Apply(c, s, TryRelay(ok)).d);
      && d' == s.d.(consumer := d'.consumer)
      && d'.consumer == if ok then Fired else if n < 4 then Relay(n + 1) else Settling
  {
  }

  /** Timers are started by the handlers of a published card and of an opening, for the configured
      time; nothing else starts one. */
  lemma TimersStartedBy(c: Config, s: Lane, step: Step, timer: nat)
    requires timer !in s.d.timers
    ensures var d' := Apply(c, s, step).d;
      && (timer in d'.timers
          <==> step.Resume? && (s.d.At(step.task).Told? || s.d.At(step.task).Opened?) && timer == s.d.nextTimer)
      && (timer in d'.timers ==>
            d'.timers[timer] == if s.d.At(step.task).Told? then ValidatingTimer(s.now + c.timeout)
                                else PassTimer(s.now + c.timeout))
  {
    SignalStep(c, s, step);
    if IsSignal(s, step) {
      TimersBySignal(c, s.d, Handler(step), Handed(s, step), s.book.exits);
    } else if step.Resume? {
      TimersByResumption(c, s.d, step.task, s.now, timer);
    } else {
      TimersOtherwise(c, s, step, timer);
    }
  }

  /** A timer ends by waking after its deadline, by the rejection it was remembered for, or with the
      daemon. */
  lemma TimersEndedBy(c: Config, s: Lane, step: Step, timer: nat)
    requires timer in s.d.timers && s.d.nextTimer != timer
    ensures var d' := Apply(c, s, step).d;
      && (timer !in d'.timers
          <==> step.Crash? || (step == TimerFires(timer) && s.d.timers[timer].deadline <= s.now)
               || (TakesUp(s, step, RejectCard) && s.d.validating == Some(timer)))
      && (timer in d'.timers ==> d'.timers[timer] == s.d.timers[timer])
  {
    SignalStep(c, s, step);
    if IsSignal(s, step) {
      TimersBySignal(c, s.d, Handler(step), Handed(s, step), s.book.exits);
    } else if step.Resume? {
      TimersByResumption(c, s.d, step.task, s.now, timer);
    } else {
      TimersOtherwise(c, s, step, timer);
    }
  }

  /** The validating timer started last is the one a rejection cancels, and the pass timer's start is
      kept. */
  lemma TimersRemembered(c: Config, s: Lane, step: Step)
    ensures var (d, d') := (s.d, Apply(c, s, step).d);
      var (told, passing) := (step.Resume? && d.At(step.task).Told?, step.Resume? && d.At(step.task).Opened?);
      && d'.validating == (if step.Crash? then None else if told then Some(d.nextTimer) else d.validating)
      && (!step.Crash? ==> d'.nextTimer == d.nextTimer + One(told || passing))
      && (!step.Crash? ==> d'.openedAt == if passing then s.now else d.openedAt)
  {
    SignalStep(c, s, step);
    if IsSignal(s, step) {
      TimersBySignal(c, s.d, Handler(step), Handed(s, step), s.book.exits);
    } else if !step.Crash? {
      RememberedOtherwise(c, s, step);
    }
  }

  lemma RememberedOtherwise(c: Config, s: Lane, step: Step)
    requires !IsSignal(s, step) && !step.Crash?
    ensures var (d, d') := (s.d, Apply(c, s, step).d);
      var (told, passing) := (step.Resume? && d.At(step.task).Told?, step.Resume? && d.At(step.task).Opened?);
      && d'.validating == (if told then Some(d.nextTimer) else d.validating)
      && d'.nextTimer == d.nextTimer + One(told || passing)
      && d'.openedAt == if passing then s.now else d.openedAt
  {
  }

  lemma TimersBySignal(c: Config, d: Daemon, t: Task, signal: Compass.Signal, id: nat)
    ensures var d' := OnSignal(c, d, t, signal, id).0;
      && (d'.timers, d'.nextTimer, d'.validating, d'.openedAt)
         == (d.timers, d.nextTimer, d.validating, d.openedAt)
  {
  }

  lemma TimersByResumption(c: Config, d: Daemon, t: Task, now: int, timer: nat)
    ensures var timers := OnResume(c, d, t, now).0.timers;
      && (timer in timers <==> timer in d.timers || ((d.At(t).Told? || d.At(t).Opened?) && timer == d.nextTimer))
      && (timer in d.timers && timer != d.nextTimer ==> timers[timer] == d.timers[timer])
      && (d.At(t).Told? ==> timers[d.nextTimer] == ValidatingTimer(now + c.timeout))
      && (d.At(t).Opened? ==> timers[d.nextTimer] == PassTimer(now + c.timeout))
  {
  }

  lemma TimersOtherwise(c: Config, s: Lane, step: Step, timer: nat)
    requires !IsSignal(s, step) && !step.Resume?
    ensures var timers := Apply(c, s, step).d.timers;
      && (timer in timers
          <==> timer in s.d.timers && !step.Crash?
               && !(step == TimerFires(timer) && s.d.timers[timer].deadline <= s.now)
               && !(TakesUp(s, step, RejectCard) && s.d.validating == Some(timer)))
      && (timer in timers ==> timers[timer] == s.d.timers[timer])
  {
  }

  /** An event is published where it was raised; a card's handler then goes on to its timeout. */
  lemma Published(c: Config, s: Lane, t: Task)
    requires s.d.At(t).Telling?
    ensures var s' := Apply(c, s, Publish(t));
      && s'.redis == s.redis.(channel := s.redis.channel + [s.d.At(t).event])
      && s'.d.At(t) == (if s.d.At(t).event.kind.CardTap? then Told else Ready)
      && s'.d.gate == s.d.gate && s'.d.timers == s.d.timers && s'.book == s.book
  {
  }

  // ---------------------------------------------------------------- where the handlers are

  /** A signal leaves its handler publishing if it raised an event, pausing after the help button, with
      only its display and acknowledgement left if it moved the gate, and ready otherwise; the other
      tasks stay where they are. */
  lemma HandlerAfterSignal(c: Config, s: Lane, step: Step, other: Task)
    requires IsSignal(s, step) && s.d.At(Handler(step)).Ready?
    ensures var (d, d', pc) := (s.d, Apply(c, s, step).d, Apply(c, s, step).d.At(Handler(step)));
      && (pc.Telling? <==> Raises(c, d, Handed(s, step)))
      && (pc.Helping? <==> d.gate.WaitingInput? && Handed(s, step).In3On?)
      && (pc.Settling? <==> d'.gate != d.gate && !pc.Telling?)
      && (pc.Ready? <==> d'.gate == d.gate && !pc.Helping?)
      && (other != Handler(step) ==> d'.At(other) == d.At(other))
  {
    SignalStep(c, s, step);
    HandlerBySignal(c, s.d, Handler(step), Handed(s, step), s.book.exits, other);
  }

  predicate Raises(c: Config, d: Daemon, signal: Compass.Signal) {
    d.gate.WaitingInput? && ((signal.In2On? && d.in1On) || (signal.Card? && c.hasRfid))
  }

  lemma HandlerBySignal(c: Config, d: Daemon, t: Task, signal: Compass.Signal, id: nat, other: Task)
    requires d.At(t).Ready?
    ensures var d' := OnSignal(c, d, t, signal, id).0;
      var pc := d'.At(t);
      && (pc.Telling? <==> Raises(c, d, signal)) && (pc.Helping? <==> d.gate.WaitingInput? && signal.In3On?)
      && (pc.Settling? <==> d'.gate != d.gate && !pc.Telling?)
      && (pc.Ready? <==> d'.gate == d.gate && !pc.Helping?)
      && (other != t ==> d'.At(other) == d.At(other))
  {
  }

  /** Where a suspended handler goes on to; the relay is tried from the start after a ticket is printed. */
  lemma HandlerResumed(c: Config, s: Lane, t: Task, other: Task)
    ensures var (pc, d') := (s.d.At(t), Apply(c, s, Resume(t)).d);
      && (pc.Settling? || pc.Told? || pc.Opened? ==> d'.At(t).Ready?)
      && (pc.Helping? || pc.Rejecting? ==> d'.At(t).Settling?)
      && (pc.Printing? ==> d'.At(t) == Relay(0))
      && (pc.Fired? ==> d'.At(t).Opened?)
      && (pc.Ready? || pc.Telling? || pc.Relay? ==> d' == s.d)
      && (other != t ==> d'.At(other) == s.d.At(other))
  {
  }

  /** A failing Redis call takes its handler out of what it was doing, except out of the relay's
      attempts, and changes nothing else. */
  lemma HandlerAbandoned(c: Config, s: Lane, t: Task)
    ensures Apply(c, s, RedisFails(t)) == if s.d.At(t).Relay? then s else s.(d := s.d.Put(t, Ready))
  {
  }

  /** A command that opens is given five attempts, a ticket being printed before or not. */
  lemma FiveAttempts(c: Config, s: Lane)
    requires s.d.consumer.Ready? && s.redis.cursor < |s.redis.stream|
    requires s.redis.stream[s.redis.cursor].Opens()
    ensures var taken := Apply(c, s, Deliver);
      var started := if s.redis.stream[s.redis.cursor].OpenGate? then taken else Apply(c, taken, Resume(Consumer));
      var no := TryRelay(false);
      var four := Apply(c, Apply(c, Apply(c, Apply(c, started, no), no), no), no);
      && Apply(c, four, TryRelay(true)).d.consumer.Fired?
      && Apply(c, four, no).d.consumer.Settling?
  {
    var taken := Apply(c, s, Deliver);
    CommandStarted(c, s);
    HandlerResumed(c, taken, Consumer, Listener);
    var started := if s.redis.stream[s.redis.cursor].OpenGate? then taken else Apply(c, taken, Resume(Consumer));
    var one := Apply(c, started, TryRelay(false));
    RelayAttempted(c, started, false);
    var two := Apply(c, one, TryRelay(false));
    RelayAttempted(c, one, false);
    var three := Apply(c, two, TryRelay(false));
    RelayAttempted(c, two, false);
    var four := Apply(c, three, TryRelay(false));
    RelayAttempted(c, three, false);
    RelayAttempted(c, four, true);
    RelayAttempted(c, four, false);
  }

  // ---------------------------------------------------------------- what the history counts

  /** The counts of the history are those of the gate's moves: arrivals at an idle lane, departures with
      an event, finished rejections, openings, and open writes for the command taken last. */
  lemma HistoryCounts(c: Config, s: Lane, step: Step)
    ensures var (b, b') := (s.book, Apply(c, s, step).book);
      && b'.detections == b.detections + One(s.d.gate.Idle? && Handed(s, step).In1On?)
      && b'.exits == b.exits + One(Raises(c, s.d, Handed(s, step)))
      && b'.rejectionsDone == b.rejectionsDone + One(step.Resume? && s.d.At(step.task).Rejecting?)
      && b'.openings == b.openings + One(step.Resume? && s.d.At(step.task).Fired?)
      && b'.opens == b.opens + if step == TryRelay(true) && s.d.consumer.Relay? && b.handled != []
                               then [b.handled[|b.handled| - 1]] else []
  {
    assert s.book.opens + [] == s.book.opens;
    if IsSignal(s, step) {
      SignalEffect(c, s, step);
      CountsBySignal(c, s.d, Handler(step), Handed(s, step), s.book.exits);
    } else {
      CountsOtherwise(c, s, step);
    }
  }

  lemma SignalEffect(c: Config, s: Lane, step: Step)
    requires IsSignal(s, step)
    ensures var (effect, b') := (OnSignal(c, s.d, Handler(step), Handed(s, step), s.book.exits).1, Apply(c, s, step).book);
      !effect.RelayWritten? && b' == Note(s.book, effect).(handled := b'.handled)
  {
  }

  lemma CountsBySignal(c: Config, d: Daemon, t: Task, signal: Compass.Signal, id: nat)
    ensures var effect := OnSignal(c, d, t, signal, id).1;
      && (effect.Detected? <==> d.gate.Idle? && signal.In1On?)
      && (effect.Raised? <==> Raises(c, d, signal))
      && (effect.Detected? || effect.Raised? || effect.Nothing?)
  {
  }

  lemma CountsOtherwise(c: Config, s: Lane, step: Step)
    requires !IsSignal(s, step)
    ensures var (b, b') := (s.book, Apply(c, s, step).book);
      && b'.detections == b.detections && b'.exits == b.exits
      && b'.rejectionsDone == b.rejectionsDone + One(step.Resume? && s.d.At(step.task).Rejecting?)
      && b'.openings == b.openings + One(step.Resume? && s.d.At(step.task).Fired?)
      && b'.opens == if step == TryRelay(true) && s.d.consumer.Relay? && b.handled != []
                     then b.opens + [b.handled[|b.handled| - 1]] else b.opens
  {
  }
}
