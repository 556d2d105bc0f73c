/** The entry lane as a protocol: the gate-in daemon with its concurrent tasks and timers, the
    Pub/Sub channel for events, the Redis stream for commands, and the server-side event
    consumer. A run is any sequence of steps; a step that is not enabled changes nothing. */
module EntryLane {
  import opened Text
  import Compass

  // ---------------------------------------------------------------- messages

  datatype EventKind = TicketButton | CardTap(card: string)

  /** An event that leads to an entry transaction; the number identifies the press or tap. */
  datatype Event = Event(id: nat, kind: EventKind)

  datatype Command =
    | OpenGate
    | PrintTicketThenOpen
    | RejectCard
    | ResetGate
    | InjectRss(signal: string)
    | Other              // close, brake, audio, display, unknown: no influence on the state
  {
    predicate Opens() { OpenGate? || PrintTicketThenOpen? }
  }

  // ---------------------------------------------------------------- the daemon

  datatype GateState = Idle | WaitingInput | Validating | Processing | Opening

  datatype Task = Listener | Reader | Consumer

  /** Where a task of the daemon is suspended. Between two such points a handler runs without
      interruption: a test of the state and the transition it guards are one step. */
  datatype Pc =
    | Ready
    | Settling                 // only awaits without influence on the lane are left
    | Telling(event: Event)    // the state has moved, the event is not published yet
    | Told                     // a card event is published, its timeout is not started yet
    | Helping                  // the help button's pause before the reset
    | Printing
    | Relay(failures: nat)     // opening the relay, after so many failed attempts
    | Fired                    // the open write has succeeded, the state has not moved yet
    | Opened                   // OPENING is entered, its timer is not started yet
    | Rejecting                // the timeout is cancelled, the rejection is on display

  datatype Timer = PassTimer(deadline: int) | ValidatingTimer(deadline: int)

  /** One life of the daemon process. */
  datatype Daemon = Daemon(
    gate: GateState,
    in1On: bool,
    listener: Pc,
    reader: Pc,
    consumer: Pc,
    timers: map<nat, Timer>,       // sleeping timer tasks, by spawn number
    nextTimer: nat,
    validating: Option<nat>,       // the remembered validating task
    openedAt: int)                 // when the last pass timer was started
  {
    function At(t: Task): Pc {
      match t
      case Listener => listener
      case Reader => reader
      case Consumer => consumer
    }

    function Put(t: Task, pc: Pc): Daemon {
      match t
      case Listener => this.(listener := pc)
      case Reader => this.(reader := pc)
      case Consumer => this.(consumer := pc)
    }
  }

  /** Whatever state was persisted, a start ends in IDLE with no task of an earlier life. */
  const NEW_LIFE := Daemon(Idle, false, Ready, Ready, Ready, map[], 0, None, 0)

  datatype Config = Config(hasRfid: bool, timeout: nat)

  /** What a daemon segment tells the bookkeeping of the run. */
  datatype Effect = Nothing | Detected | Raised | RelayWritten | OpeningEntered | RejectionDone

  const RELAY_ATTEMPTS := 5

  /** The test-and-transition segment for a sensor signal or card. */
  function OnSignal(c: Config, d: Daemon, t: Task, signal: Compass.Signal, id: nat): (Daemon, Effect)
  {
    match signal
    case In1On =>
      var d := d.(in1On := true);
      if d.gate.Idle? then (d.(gate := WaitingInput).Put(t, Settling), Detected) else (d, Nothing)
    case In1Off =>
      var d := d.(in1On := false);
      if d.gate.WaitingInput? || d.gate.Opening? then (d.(gate := Idle).Put(t, Settling), Nothing)
      else (d, Nothing)
    case In2On =>
      if d.in1On && d.gate.WaitingInput? then
        (d.(gate := Processing).Put(t, Telling(Event(id, TicketButton))), Raised)
      else (d, Nothing)
    case In3On =>
      if d.gate.WaitingInput? then (d.Put(t, Helping), Nothing) else (d, Nothing)
    case In4On =>
      if d.gate.WaitingInput? || d.gate.Opening? then (d.(gate := Idle).Put(t, Settling), Nothing)
      else (d, Nothing)
    case In4Off =>
      if d.gate.Opening? then (d.(gate := Idle).Put(t, Settling), Nothing) else (d, Nothing)
    case Card(number) =>
      if d.gate.WaitingInput? && c.hasRfid then
        (d.(gate := Validating).Put(t, Telling(Event(id, CardTap(number)))), Raised)
      else (d, Nothing)
    case Ignored => (d, Nothing)
  }

  function Cancel(timers: map<nat, Timer>, task: Option<nat>): map<nat, Timer> {
    if task.Some? then timers - {task.value} else timers
  }

  /** The first segment of a command handler. */
  function OnCommand(c: Config, d: Daemon, command: Command, id: nat): (Daemon, Effect) {
    match command
    case OpenGate => (d.(consumer := Relay(0)), Nothing)
    case PrintTicketThenOpen => (d.(consumer := Printing), Nothing)
    case RejectCard =>
      (d.(timers := Cancel(d.timers, d.validating), consumer := Rejecting), Nothing)
    case ResetGate => (d.(gate := Idle, consumer := Settling), Nothing)
    case InjectRss(signal) =>
      OnSignal(c, d, Consumer, Compass.Classify(Compass.FramedText(signal)), id)
    case Other => (d.(consumer := Settling), Nothing)
  }

  /** One attempt of the bounded retry loop around the open relay. */
  function OnRelay(d: Daemon, ok: bool): (Daemon, Effect) {
    if !d.consumer.Relay? then (d, Nothing)
    else if ok then (d.(consumer := Fired), RelayWritten)
    else if d.consumer.failures + 1 < RELAY_ATTEMPTS then
      (d.(consumer := Relay(d.consumer.failures + 1)), Nothing)
    else (d.(consumer := Settling), Nothing)
  }

  /** The segment after an await or a pause. */
  function OnResume(c: Config, d: Daemon, t: Task, now: int): (Daemon, Effect) {
    match d.At(t)
    case Settling => (d.Put(t, Ready), Nothing)
    case Told =>
      (d.(timers := d.timers[d.nextTimer := ValidatingTimer(now + c.timeout)],
          validating := Some(d.nextTimer), nextTimer := d.nextTimer + 1).Put(t, Ready), Nothing)
    case Helping => (d.(gate := Idle).Put(t, Settling), Nothing)
    case Printing => (d.Put(t, Relay(0)), Nothing)
    case Fired => (d.(gate := Opening).Put(t, Opened), OpeningEntered)
    case Opened =>
      (d.(timers := d.timers[d.nextTimer := PassTimer(now + c.timeout)], openedAt := now,
          nextTimer := d.nextTimer + 1).Put(t, Ready), Nothing)
    case Rejecting => (d.(gate := WaitingInput).Put(t, Settling), RejectionDone)
    case _ => (d, Nothing)
  }

  /** A Redis call of the suspended handler raises: the handler is abandoned where it is. */
  function OnRedisFailure(d: Daemon, t: Task): Daemon {
    if d.At(t).Ready? || d.At(t).Relay? then d else d.Put(t, Ready)
  }

  /** A timer task wakes up; it acts only if the state is still the one it watches. */
  function OnTimer(d: Daemon, timer: nat, now: int): Daemon {
    if timer !in d.timers || now < d.timers[timer].deadline then d
    else
      var woken := d.(timers := d.timers - {timer});
      match d.timers[timer]
      case PassTimer(_) => if d.gate.Opening? then woken.(gate := Idle) else woken
      case ValidatingTimer(_) => if d.gate.Validating? then woken.(gate := Idle) else woken
  }

  // ---------------------------------------------------------------- the server

  datatype Member = Member(active: bool, validUntil: Option<int>)

  datatype Verdict = NotRegistered | NotActive | Expired | Unfinished | Admit
  {
    predicate Rejects() { !Admit? }
  }

  /** The checks on a card at the entry, in the order they are made. */
  function Judge(member: Option<Member>, today: int, unclosed: bool): Verdict {
    if member.None? then NotRegistered
    else if !member.value.active then NotActive
    else if member.value.validUntil.Some? && member.value.validUntil.value < today then Expired
    else if unclosed then Unfinished
    else Admit
  }

  datatype Server =
    | Waiting
    | Deciding(event: Event)
    | Committed(command: Command)    // the transaction is committed, the command is not sent yet

  /** What the database says about an event. */
  datatype Lookup = GateMissing | DatabaseFails | Found(member: Option<Member>, today: int, unclosed: bool)

  // ---------------------------------------------------------------- the lane

  datatype Redis = Redis(channel: seq<Event>, stream: seq<Command>, cursor: nat)

  /** History of the run. Stream positions identify commands, event numbers identify events. */
  datatype Book = Book(
    detections: nat,         // transitions IDLE to WAITING_INPUT on the vehicle sensor
    exits: nat,              // transitions WAITING_INPUT to PROCESSING or VALIDATING
    rejectionsDone: nat,     // rejections that have put the gate back to WAITING_INPUT
    handled: seq<nat>,       // commands whose handler was started
    opens: seq<nat>,         // commands whose handler got an open write through
    openings: nat,           // entries into OPENING
    txs: seq<nat>,           // events that became an entry transaction
    rejected: seq<nat>)      // events that were answered by a rejection

  datatype Lane = Lane(d: Daemon, redis: Redis, server: Server, now: int, book: Book)

  const START := Lane(NEW_LIFE, Redis([], [], 0), Waiting, 0, Book(0, 0, 0, [], [], 0, [], []))

  datatype Step =
    | Tick(dt: nat)
    | Sense(text: string)
    | SerialCard(card: string)
    | Deliver
    | DeliveryLost                              // delivered to a daemon that never saw it
    | Publish(task: Task)
    | Resume(task: Task)
    | TryRelay(ok: bool)
    | RedisFails(task: Task)
    | TimerFires(timer: nat)
    | Crash                                     // and restart
    | EventLost(at: nat)
    | ServerTakes
    | ServerDecides(lookup: Lookup, sendOk: bool)
    | ServerWarns                               // membership about to expire: text and audio
    | ServerSends(sendOk: bool)
    | ServerCrash
    | Operator(command: Command)                // any command but a rejection

  function Note(b: Book, effect: Effect): Book {
    match effect
    case Nothing => b
    case Detected => b.(detections := b.detections + 1)
    case Raised => b.(exits := b.exits + 1)
    case RelayWritten =>
      if b.handled == [] then b else b.(opens := b.opens + [b.handled[|b.handled| - 1]])
    case OpeningEntered => b.(openings := b.openings + 1)
    case RejectionDone => b.(rejectionsDone := b.rejectionsDone + 1)
  }

  function After(s: Lane, result: (Daemon, Effect)): Lane {
    s.(d := result.0, book := Note(s.book, result.1))
  }

  function Append(r: Redis, commands: seq<Command>): Redis {
    r.(stream := r.stream + commands)
  }

  /** The server's decision about the event it holds. */
  function Decide(s: Lane, lookup: Lookup, sendOk: bool): Lane {
    if !s.server.Deciding? then s
    else
      var e := s.server.event;
      match lookup
      case GateMissing => s.(server := Waiting)
      case DatabaseFails => s.(server := Waiting)
      case Found(member, today, unclosed) =>
        if e.kind.TicketButton? then
          s.(server := Committed(PrintTicketThenOpen), book := s.book.(txs := s.book.txs + [e.id]))
        else if !Judge(member, today, unclosed).Rejects() then
          s.(server := Committed(OpenGate), book := s.book.(txs := s.book.txs + [e.id]))
        else if sendOk then
          s.(server := Waiting, redis := Append(s.redis, [RejectCard]),
             book := s.book.(rejected := s.book.rejected + [e.id]))
        else s.(server := Waiting)
  }

  function Apply(c: Config, s: Lane, step: Step): Lane {
    match step
    case Tick(dt) => s.(now := s.now + dt)
    case Sense(text) =>
      if !s.d.listener.Ready? then s
      else After(s, OnSignal(c, s.d, Listener, Compass.Classify(text), s.book.exits))
    case SerialCard(card) =>
      if !s.d.reader.Ready? || card == "" then s
      else After(s, OnSignal(c, s.d, Reader, Compass.Card(card), s.book.exits))
    case Deliver =>
      if !s.d.consumer.Ready? || s.redis.cursor >= |s.redis.stream| then s
      else
        var taken := s.(redis := s.redis.(cursor := s.redis.cursor + 1),
                        book := s.book.(handled := s.book.handled + [s.redis.cursor]));
        After(taken, OnCommand(c, s.d, s.redis.stream[s.redis.cursor], s.book.exits))
    case DeliveryLost =>
      if s.redis.cursor >= |s.redis.stream| then s
      else s.(redis := s.redis.(cursor := s.redis.cursor + 1))
    case Publish(t) =>
      if !s.d.At(t).Telling? then s
      else
        var e := s.d.At(t).event;
        s.(d := s.d.Put(t, if e.kind.CardTap? then Told else Ready),
           redis := s.redis.(channel := s.redis.channel + [e]))
    case Resume(t) => After(s, OnResume(c, s.d, t, s.now))
    case TryRelay(ok) => After(s, OnRelay(s.d, ok))
    case RedisFails(t) => s.(d := OnRedisFailure(s.d, t))
    case TimerFires(timer) => s.(d := OnTimer(s.d, timer, s.now))
    case Crash => s.(d := NEW_LIFE)
    case EventLost(at) =>
      if at >= |s.redis.channel| then s
      else s.(redis := s.redis.(channel := s.redis.channel[..at] + s.redis.channel[at + 1..]))
    case ServerTakes =>
      if !s.server.Waiting? || s.redis.channel == [] then s
      else s.(server := Deciding(s.redis.channel[0]),
              redis := s.redis.(channel := s.redis.channel[1..]))
    case ServerDecides(lookup, sendOk) => Decide(s, lookup, sendOk)
    case ServerWarns =>
      if s.server.Deciding? then s.(redis := Append(s.redis, [Other, Other])) else s
    case ServerSends(sendOk) =>
      if !s.server.Committed? then s
      else s.(server := Waiting,
              redis := if sendOk then Append(s.redis, [s.server.command]) else s.redis)
    case ServerCrash => s.(server := Waiting)
    case Operator(command) =>
      if command.RejectCard? then s else s.(redis := Append(s.redis, [command]))
  }

  function Exec(c: Config, s: Lane, steps: seq<Step>): Lane {
    if steps == [] then s
    else Apply(c, Exec(c, s, steps[..|steps| - 1]), steps[|steps| - 1])
  }
}
