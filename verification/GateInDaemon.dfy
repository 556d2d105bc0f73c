/** The gate-in daemon as an object: its fields, and the segments of its handlers between two
    suspension points as methods that update them in place. Each method does to the fields what
    the daemon functions of the entry-lane protocol say. */
module GateInDaemons {
  import opened Text
  import opened EntryLane
  import Compass

  class GateInDaemon {
    const config: Config
    var state: GateState
    var in1On: bool
    var timers: map<nat, Timer>
    var nextTimer: nat
    var validatingTask: Option<nat>
    var openedAt: int
    // the suspended coroutines
    var listener: Pc
    var reader: Pc
    var consumer: Pc

    function View(): Daemon
      reads this
    {
      Daemon(state, in1On, listener, reader, consumer, timers, nextTimer, validatingTask, openedAt)
    }

    constructor (config: Config)
      ensures View() == NEW_LIFE && this.config == config
    {
      this.config := config;
      state, in1On := Idle, false;
      timers, nextTimer, validatingTask, openedAt := map[], 0, None, 0;
      listener, reader, consumer := Ready, Ready, Ready;
    }

    method Suspend(t: Task, pc: Pc)
      modifies this
      ensures View() == old(View()).Put(t, pc)
    {
      match t
      case Listener => listener := pc;
      case Reader => reader := pc;
      case Consumer => consumer := pc;
    }

    /** A framed message from the controller, on whichever task it arrives. */
    method DispatchRssMessage(t: Task, text: string, id: nat) returns (effect: Effect)
      modifies this
      ensures (View(), effect) == OnSignal(config, old(View()), t, Compass.Classify(text), id)
    {
      effect := Nothing;
      match Compass.Classify(text) {
        case In1On =>
          in1On := true;
          if state.Idle? {
            state := WaitingInput;
            Suspend(t, Settling);
            effect := Detected;
          }
        case In1Off =>
          in1On := false;
          if state.WaitingInput? || state.Opening? {
            state := Idle;
            Suspend(t, Settling);
          }
        case In2On =>
          if in1On && state.WaitingInput? {
            state := Processing;
            Suspend(t, Telling(Event(id, TicketButton)));
            effect := Raised;
          }
        case In3On =>
          if state.WaitingInput? { Suspend(t, Helping); }
        case In4On =>
          if state.WaitingInput? || state.Opening? {
            state := Idle;
            Suspend(t, Settling);
          }
        case In4Off =>
          if state.Opening? {
            state := Idle;
            Suspend(t, Settling);
          }
        case Card(number) =>
          effect := OnRfidCardRead(t, number, id);
        case Ignored =>
      }
    }

    /** A card number, from a Wiegand frame or from the serial reader. */
    method OnRfidCardRead(t: Task, number: string, id: nat) returns (effect: Effect)
      modifies this
      ensures (View(), effect) == OnSignal(config, old(View()), t, Compass.Card(number), id)
    {
      effect := Nothing;
      if state.WaitingInput? && config.hasRfid {
        state := Validating;
        Suspend(t, Telling(Event(id, CardTap(number))));
        effect := Raised;
      }
    }

    /** The first segment of a command from the stream. */
    method HandleCommand(command: Command, id: nat) returns (effect: Effect)
      modifies this
      ensures (View(), effect) == OnCommand(config, old(View()), command, id)
    {
      effect := Nothing;
      match command {
        case OpenGate => consumer := Relay(0);
        case PrintTicketThenOpen => consumer := Printing;
        case RejectCard =>
          if validatingTask.Some? { timers := timers - {validatingTask.value}; }
          consumer := Rejecting;
        case ResetGate =>
          state := Idle;
          consumer := Settling;
        case InjectRss(signal) =>
          effect := DispatchRssMessage(Consumer, Compass.FramedText(signal), id);
        case Other => consumer := Settling;
      }
    }

    /** The bounded retry loop around the open relay, given which of the attempts land. */
    method RelayOpenReliable(landed: seq<bool>) returns (ok: bool, attempts: nat)
      requires |landed| == RELAY_ATTEMPTS && consumer == Relay(0)
      modifies this
      ensures ok <==> true in landed
      ensures 1 <= attempts <= RELAY_ATTEMPTS
      ensures ok ==> landed[attempts - 1] && true !in landed[..attempts - 1]
      ensures View() == old(View()).(consumer := if ok then Fired else Settling)
    {
      attempts := 0;
      ok := false;
      while consumer.Relay?
        invariant attempts <= RELAY_ATTEMPTS
        invariant consumer == if ok then Fired
                              else if attempts < RELAY_ATTEMPTS then Relay(attempts) else Settling
        invariant ok ==> attempts > 0 && landed[attempts - 1] && true !in landed[..attempts - 1]
        invariant !ok ==> true !in landed[..attempts]
        invariant View() == old(View()).(consumer := consumer)
        decreases RELAY_ATTEMPTS - attempts, if consumer.Relay? then 1 else 0
      {
        var effect := RelayAttempt(landed[attempts]);
        ok := effect.RelayWritten?;
        attempts := attempts + 1;
        assert landed[..attempts] == landed[..attempts - 1] + [landed[attempts - 1]];
      }
      assert landed[..|landed|] == landed;
    }

    /** One attempt of the loop. */
    method RelayAttempt(landed: bool) returns (effect: Effect)
      modifies this
      ensures (View(), effect) == OnRelay(old(View()), landed)
    {
      effect := Nothing;
      if consumer.Relay? {
        if landed {
          consumer := Fired;
          effect := RelayWritten;
        } else if consumer.failures + 1 < RELAY_ATTEMPTS {
          consumer := Relay(consumer.failures + 1);
        } else {
          consumer := Settling;
        }
      }
    }

    /** A suspended handler goes on. */
    method ResumeTask(t: Task, now: int) returns (effect: Effect)
      modifies this
      ensures (View(), effect) == OnResume(config, old(View()), t, now)
    {
      effect := Nothing;
      match View().At(t) {
        case Settling => Suspend(t, Ready);
        case Told =>
          SpawnTimer(ValidatingTimer(now + config.timeout));
          validatingTask := Some(nextTimer - 1);
          Suspend(t, Ready);
        case Helping =>
          state := Idle;
          Suspend(t, Settling);
        case Printing => Suspend(t, Relay(0));
        case Fired =>
          state := Opening;
          Suspend(t, Opened);
          effect := OpeningEntered;
        case Opened =>
          SpawnTimer(PassTimer(now + config.timeout));
          openedAt := now;
          Suspend(t, Ready);
        case Rejecting =>
          state := WaitingInput;
          Suspend(t, Settling);
          effect := RejectionDone;
        case _ =>
      }
    }

    /** A tracked background task; it is never cancelled by a later one of its kind. */
    method SpawnTimer(timer: Timer)
      modifies this
      ensures View() == old(View()).(timers := old(timers)[old(nextTimer) := timer],
                                     nextTimer := old(nextTimer) + 1)
    {
      timers := timers[nextTimer := timer];
      nextTimer := nextTimer + 1;
    }

    /** A timer task wakes up. */
    method WakeTimer(timer: nat, now: int)
      modifies this
      ensures View() == OnTimer(old(View()), timer, now)
    {
      if timer !in timers || now < timers[timer].deadline { return; }
      var woken := timers[timer];
      timers := timers - {timer};
      if woken.PassTimer? {
        if state.Opening? { state := Idle; }
      } else {
        if state.Validating? { state := Idle; }
      }
    }
  }
}
