/** When the entry lane can and cannot get stuck. */
module EntryLaneLiveness {
  import opened Text
  import opened EntryLane
  import opened EntryLaneProofs
  import Compass

  /** A card handler that will still start the validating timeout. */
  predicate CardBusy(pc: Pc) {
    (pc.Telling? && pc.event.kind.CardTap?) || pc.Told?
  }

  predicate SomeCardBusy(d: Daemon) {
    CardBusy(d.listener) || CardBusy(d.reader) || CardBusy(d.consumer)
  }

  ghost predicate Scheduled(timers: map<nat, Timer>, timer: Timer) {
    exists id :: id in timers && timers[id] == timer
  }

  /** The remembered validating task has neither fired nor been cancelled. */
  predicate LatestPending(d: Daemon) {
    d.validating.Some? && d.validating.value in d.timers
  }

  ghost predicate Numbered(d: Daemon) {
    && (forall id :: id in d.timers ==> id < d.nextTimer)
    && (d.validating.Some? ==> d.validating.value < d.nextTimer)
    && (LatestPending(d) ==> d.timers[d.validating.value].ValidatingTimer?)
  }

  ghost predicate OpeningCovered(c: Config, d: Daemon) {
    d.gate.Opening? ==> d.consumer.Opened? || Scheduled(d.timers, PassTimer(d.openedAt + c.timeout))
  }

  predicate ValidatingCovered(d: Daemon) {
    d.gate.Validating? ==> SomeCardBusy(d) || d.consumer.Rejecting? || LatestPending(d)
  }

  ghost predicate GateCovered(c: Config, d: Daemon) {
    OpeningCovered(c, d) && ValidatingCovered(d)
  }

  ghost predicate Covered(c: Config, d: Daemon) {
    Numbered(d) && GateCovered(c, d)
  }

  /** The task still has to start the timer that the gate's state waits for, or ends that state
      itself. */
  predicate Owes(d: Daemon, t: Task) {
    || (d.gate.Opening? && t.Consumer? && d.consumer.Opened?)
    || (d.gate.Validating? && (CardBusy(d.At(t)) || (t.Consumer? && d.consumer.Rejecting?)))
  }

  /** Nothing but this task covers the gate's state. */
  ghost predicate LastCover(c: Config, d: Daemon, t: Task) {
    && Owes(d, t)
    && (d.gate.Opening? ==> !Scheduled(d.timers, PassTimer(d.openedAt + c.timeout)))
    && (d.gate.Validating? ==> !LatestPending(d) && forall u :: u != t ==> !Owes(d, u))
  }

  // ---------------------------------------------------------------- preservation

  /** Segments that only move the gate and suspend a task that was ready. */
  lemma PutCovers(c: Config, d: Daemon, moved: Daemon, t: Task, pc: Pc)
    requires Covered(c, d) && d.At(t).Ready?
    requires moved == d.(gate := moved.gate, in1On := moved.in1On)
    requires moved.gate.Opening? ==> d.gate.Opening?
    requires moved.gate.Validating? ==> d.gate.Validating? || CardBusy(pc)
    ensures Covered(c, moved.Put(t, pc))
  {
    match t
    case Listener =>
    case Reader =>
    case Consumer =>
  }

  lemma SignalCovers(c: Config, d: Daemon, t: Task, signal: Compass.Signal, id: nat)
    requires Covered(c, d) && d.At(t).Ready?
    ensures Covered(c, OnSignal(c, d, t, signal, id).0)
  {
    match signal
    case In1On => PutCovers(c, d, d.(in1On := true).(gate := WaitingInput), t, Settling);
    case In1Off => PutCovers(c, d, d.(in1On := false).(gate := Idle), t, Settling);
    case In2On => PutCovers(c, d, d.(gate := Processing), t, Telling(Event(id, TicketButton)));
    case In3On => PutCovers(c, d, d, t, Helping);
    case In4On => PutCovers(c, d, d.(gate := Idle), t, Settling);
    case In4Off => PutCovers(c, d, d.(gate := Idle), t, Settling);
    case Card(number) =>
      PutCovers(c, d, d.(gate := Validating), t, Telling(Event(id, CardTap(number))));
    case Ignored =>
  }

  lemma CommandCovers(c: Config, d: Daemon, command: Command, id: nat)
    requires Covered(c, d) && d.consumer.Ready?
    ensures Covered(c, OnCommand(c, d, command, id).0)
  {
    match command
    case InjectRss(signal) =>
      SignalCovers(c, d, Consumer, Compass.Classify(Compass.FramedText(signal)), id);
    case RejectCard =>
      if d.gate.Opening? {
        var timer := PassTimer(d.openedAt + c.timeout);
        var k :| k in d.timers && d.timers[k] == timer;
        assert k in Cancel(d.timers, d.validating);
      }
    case _ =>
  }

  lemma TimerStarted(timers: map<nat, Timer>, id: nat, timer: Timer, other: Timer)
    requires id !in timers
    ensures Scheduled(timers[id := timer], timer)
    ensures Scheduled(timers, other) ==> Scheduled(timers[id := timer], other)
  {
    var after := timers[id := timer];
    assert id in after && after[id] == timer;
    if Scheduled(timers, other) {
      var k :| k in timers && timers[k] == other;
      assert k in after && after[k] == other;
    }
  }

  lemma ToldCovers(c: Config, d: Daemon, t: Task, now: int)
    requires Covered(c, d) && d.At(t).Told?
    ensures Covered(c, OnResume(c, d, t, now).0)
  {
    TimerStarted(d.timers, d.nextTimer, ValidatingTimer(now + c.timeout),
                 PassTimer(d.openedAt + c.timeout));
    match t
    case Listener =>
    case Reader =>
    case Consumer =>
  }

  lemma OpenedCovers(c: Config, d: Daemon, t: Task, now: int)
    requires Covered(c, d) && d.At(t).Opened?
    ensures Covered(c, OnResume(c, d, t, now).0)
  {
    TimerStarted(d.timers, d.nextTimer, PassTimer(now + c.timeout), PassTimer(now + c.timeout));
    match t
    case Listener =>
    case Reader =>
    case Consumer =>
  }

  lemma ResumeCovers(c: Config, d: Daemon, t: Task, now: int)
    requires Placed(d) && Covered(c, d)
    ensures Covered(c, OnResume(c, d, t, now).0)
  {
    match d.At(t)
    case Told => ToldCovers(c, d, t, now);
    case Opened => OpenedCovers(c, d, t, now);
    case _ => OtherResumptions(c, d, t, now);
  }

  lemma OtherResumptions(c: Config, d: Daemon, t: Task, now: int)
    requires Placed(d) && Covered(c, d) && !d.At(t).Told? && !d.At(t).Opened?
    ensures Covered(c, OnResume(c, d, t, now).0)
  {
    match d.At(t)
    case Settling => SettledCovers(c, d, t);
    case Fired => FiredCovers(c, d, t);
    case _ =>
      match t
      case Listener =>
      case Reader =>
      case Consumer =>
  }

  lemma SettledCovers(c: Config, d: Daemon, t: Task)
    requires Covered(c, d) && d.At(t).Settling?
    ensures Covered(c, d.Put(t, Ready))
  {
    match t
    case Listener =>
    case Reader =>
    case Consumer =>
  }

  lemma FiredCovers(c: Config, d: Daemon, t: Task)
    requires Placed(d) && Covered(c, d) && d.At(t).Fired?
    ensures Covered(c, d.(gate := Opening).Put(t, Opened))
  {
    assert t == Consumer;
  }

  lemma TimerCovers(c: Config, d: Daemon, timer: nat, now: int)
    requires Covered(c, d)
    ensures Covered(c, OnTimer(d, timer, now))
  {
    if timer in d.timers && d.timers[timer].deadline <= now {
      var timers := d.timers - {timer};
      var due := PassTimer(d.openedAt + c.timeout);
      if Scheduled(d.timers, due) && d.timers[timer] != due {
        var k :| k in d.timers && d.timers[k] == due;
        assert k in timers && timers[k] == due;
      }
    }
  }

  lemma PublishCovers(c: Config, d: Daemon, t: Task)
    requires Covered(c, d) && d.At(t).Telling?
    ensures Covered(c, d.Put(t, if d.At(t).event.kind.CardTap? then Told else Ready))
  {
    match t
    case Listener =>
    case Reader =>
    case Consumer =>
  }

  /** A failing Redis call abandons its handler; that uncovers the gate exactly if the handler was
      its last cover. */
  lemma FailureUncoversIff(c: Config, d: Daemon, t: Task)
    requires Covered(c, d)
    ensures Numbered(OnRedisFailure(d, t))
    ensures GateCovered(c, OnRedisFailure(d, t)) <==> !LastCover(c, d, t)
  {
    var d' := OnRedisFailure(d, t);
    if d.gate.Validating? {
      FailureFrees(d, t);
      BusyIsOwing(d);
      BusyIsOwing(d');
    }
  }

  lemma FailureFrees(d: Daemon, t: Task)
    requires d.gate.Validating?
    ensures var d' := OnRedisFailure(d, t);
      && d' == d.(listener := d'.listener, reader := d'.reader, consumer := d'.consumer)
      && (forall u :: Owes(d', u) <==> u != t && Owes(d, u))
  {
    match t
    case Listener =>
    case Reader =>
    case Consumer =>
  }

  lemma BusyIsOwing(d: Daemon)
    requires d.gate.Validating?
    ensures SomeCardBusy(d) || d.consumer.Rejecting? <==> exists u :: Owes(d, u)
  {
    assert SomeCardBusy(d) || d.consumer.Rejecting?
       <==> Owes(d, Listener) || Owes(d, Reader) || Owes(d, Consumer);
  }

  lemma RelayCovers(c: Config, d: Daemon, ok: bool)
    requires Covered(c, d)
    ensures Covered(c, OnRelay(d, ok).0)
  {
  }

  /** Every step but a failing Redis call keeps the gate covered. */
  lemma StepKeepsCovered(c: Config, s: Lane, step: Step)
    requires Placed(s.d) && Covered(c, s.d) && !step.RedisFails?
    ensures Covered(c, Apply(c, s, step).d)
  {
    match step
    case Sense(text) =>
      if s.d.listener.Ready? {
        SignalCovers(c, s.d, Listener, Compass.Classify(text), s.book.exits);
      }
    case SerialCard(card) =>
      if s.d.reader.Ready? { SignalCovers(c, s.d, Reader, Compass.Card(card), s.book.exits); }
    case Deliver =>
      if s.d.consumer.Ready? && s.redis.cursor < |s.redis.stream| {
        CommandCovers(c, s.d, s.redis.stream[s.redis.cursor], s.book.exits);
      }
    case Publish(t) => if s.d.At(t).Telling? { PublishCovers(c, s.d, t); }
    case Resume(t) => ResumeCovers(c, s.d, t, s.now);
    case TryRelay(ok) => RelayCovers(c, s.d, ok);
    case TimerFires(timer) => TimerCovers(c, s.d, timer, s.now);
    case _ =>
  }

  /** A covered gate is uncovered by exactly one kind of step: a failing Redis call in the handler
      that was its last cover. */
  lemma UncoveredIff(c: Config, s: Lane, step: Step)
    requires Placed(s.d) && Covered(c, s.d)
    ensures !GateCovered(c, Apply(c, s, step).d) <==> step.RedisFails? && LastCover(c, s.d, step.task)
  {
    if step.RedisFails? {
      FailureUncoversIff(c, s.d, step.task);
    } else {
      StepKeepsCovered(c, s, step);
    }
  }

  // ---------------------------------------------------------------- covered or not

  lemma SignalNumbered(c: Config, d: Daemon, t: Task, signal: Compass.Signal, id: nat)
    requires Numbered(d)
    ensures Numbered(OnSignal(c, d, t, signal, id).0)
  {
  }

  lemma CommandNumbered(c: Config, d: Daemon, command: Command, id: nat)
    requires Numbered(d)
    ensures Numbered(OnCommand(c, d, command, id).0)
  {
    if command.InjectRss? {
      SignalNumbered(c, d, Consumer, Compass.Classify(Compass.FramedText(command.signal)), id);
    }
  }

  lemma ResumeNumbered(c: Config, d: Daemon, t: Task, now: int)
    requires Numbered(d)
    ensures Numbered(OnResume(c, d, t, now).0)
  {
  }

  lemma OthersNumbered(c: Config, s: Lane, step: Step)
    requires Numbered(s.d)
    requires step.TimerFires? || step.RedisFails? || step.Publish? || step.TryRelay?
    ensures Numbered(Apply(c, s, step).d)
  {
  }

  lemma StepKeepsNumbered(c: Config, s: Lane, step: Step)
    requires Numbered(s.d)
    ensures Numbered(Apply(c, s, step).d)
  {
    match step
    case Sense(text) => SignalNumbered(c, s.d, Listener, Compass.Classify(text), s.book.exits);
    case SerialCard(card) => SignalNumbered(c, s.d, Reader, Compass.Card(card), s.book.exits);
    case Deliver =>
      if s.d.consumer.Ready? && s.redis.cursor < |s.redis.stream| {
        CommandNumbered(c, s.d, s.redis.stream[s.redis.cursor], s.book.exits);
      }
    case Resume(t) => ResumeNumbered(c, s.d, t, s.now);
    case TimerFires(_) => OthersNumbered(c, s, step);
    case RedisFails(_) => OthersNumbered(c, s, step);
    case Publish(_) => OthersNumbered(c, s, step);
    case TryRelay(_) => OthersNumbered(c, s, step);
    case _ =>
  }

  /** The gate begins a new stay in a state, possibly OPENING once more. */
  predicate NewStay(s: Lane, s': Lane) {
    s'.d.gate != s.d.gate || s'.book.openings != s.book.openings
  }

  /** Each stay in OPENING or VALIDATING begins covered. */
  lemma NewStayCovered(c: Config, s: Lane, step: Step)
    requires Placed(s.d) && NewStay(s, Apply(c, s, step))
    ensures GateCovered(c, Apply(c, s, step).d)
  {
    match step
    case Sense(text) => SignalEnters(c, s.d, Listener, Compass.Classify(text), s.book.exits);
    case SerialCard(card) => SignalEnters(c, s.d, Reader, Compass.Card(card), s.book.exits);
    case Deliver =>
      var command := s.redis.stream[s.redis.cursor];
      if command.InjectRss? {
        SignalEnters(c, s.d, Consumer, Compass.Classify(Compass.FramedText(command.signal)), s.book.exits);
      }
    case Resume(t) => ResumptionEnters(c, s.d, t, s.now);
    case _ =>
  }

  lemma SignalEnters(c: Config, d: Daemon, t: Task, signal: Compass.Signal, id: nat)
    ensures var (d', effect) := OnSignal(c, d, t, signal, id);
      !effect.OpeningEntered? && (d'.gate != d.gate ==> GateCovered(c, d'))
  {
  }

  lemma ResumptionEnters(c: Config, d: Daemon, t: Task, now: int)
    requires Placed(d)
    ensures var (d', effect) := OnResume(c, d, t, now);
      effect.OpeningEntered? || d'.gate != d.gate ==> GateCovered(c, d')
  {
  }

  /** A failing Redis call has abandoned the last cover of the present stay. */
  ghost predicate CoverLost(c: Config, steps: seq<Step>)
    decreases |steps|
  {
    steps != [] &&
    var n := |steps| - 1;
    var (s, s') := (Exec(c, START, steps[..n]), Exec(c, START, steps));
    || (steps[n].RedisFails? && LastCover(c, s.d, steps[n].task))
    || (CoverLost(c, steps[..n]) && !NewStay(s, s'))
  }

  lemma {:induction false} RunKeepsCovered(c: Config, steps: seq<Step>)
    ensures var d := Exec(c, START, steps).d; Numbered(d) && (!CoverLost(c, steps) ==> GateCovered(c, d))
    decreases |steps|
  {
    if steps == [] {
    } else {
      var n := |steps| - 1;
      var s := Exec(c, START, steps[..n]);
      RunKeepsCovered(c, steps[..n]);
      RunKeepsCounted(c, steps[..n]);
      StepKeepsNumbered(c, s, steps[n]);
      if NewStay(s, Apply(c, s, steps[n])) {
        NewStayCovered(c, s, steps[n]);
      } else if !CoverLost(c, steps[..n]) {
        UncoveredIff(c, s, steps[n]);
      }
    }
  }

  /** Unless a failing Redis call took the last cover of the present stay: OPENING is always watched
      by a timer that is due within the timeout of its start and then ends it (or the handler about
      to start that timer is still running), and VALIDATING by the latest timeout, a handler about
      to start it, or a rejection in progress. Stale timers and harmless failures do not matter. */
  lemma NeverStuckWhileCovered(c: Config, steps: seq<Step>)
    requires !CoverLost(c, steps)
    ensures var d := Exec(c, START, steps).d;
      && (d.gate.Opening? ==>
            d.consumer.Opened?
            || exists id :: id in d.timers && d.timers[id] == PassTimer(d.openedAt + c.timeout)
                            && OnTimer(d, id, d.openedAt + c.timeout).gate.Idle?)
      && (d.gate.Validating? ==>
            SomeCardBusy(d) || d.consumer.Rejecting?
            || (LatestPending(d)
                && OnTimer(d, d.validating.value, d.timers[d.validating.value].deadline).gate.Idle?))
  {
    RunKeepsCovered(c, steps);
    CoverIsEffective(c, Exec(c, START, steps).d);
  }

  lemma {:induction false} NoFailureNoLoss(c: Config, steps: seq<Step>)
    requires forall step :: step in steps ==> !step.RedisFails?
    ensures !CoverLost(c, steps)
    decreases |steps|
  {
    if steps == [] {
    } else {
      NoFailureNoLoss(c, steps[..|steps| - 1]);
    }
  }

  lemma CoverIsEffective(c: Config, d: Daemon)
    requires Covered(c, d)
    ensures d.gate.Opening? ==>
      d.consumer.Opened?
      || exists id :: id in d.timers && d.timers[id] == PassTimer(d.openedAt + c.timeout)
                      && OnTimer(d, id, d.openedAt + c.timeout).gate.Idle?
    ensures d.gate.Validating? ==>
      SomeCardBusy(d) || d.consumer.Rejecting?
      || (LatestPending(d)
          && OnTimer(d, d.validating.value, d.timers[d.validating.value].deadline).gate.Idle?)
  {
    if d.gate.Opening? && !d.consumer.Opened? {
      var id :| id in d.timers && d.timers[id] == PassTimer(d.openedAt + c.timeout);
      assert OnTimer(d, id, d.openedAt + c.timeout).gate.Idle?;
    }
  }

  /** If timers are served before time passes their deadline, a covered OPENING ends within the
      timeout of its timer's start, once the handler has started it. */
  lemma OpeningIsBounded(c: Config, steps: seq<Step>)
    requires var s := Exec(c, START, steps);
      && !CoverLost(c, steps) && s.d.gate.Opening? && !s.d.consumer.Opened?
      && forall id :: id in s.d.timers ==> s.now <= s.d.timers[id].deadline
    ensures Exec(c, START, steps).now <= Exec(c, START, steps).d.openedAt + c.timeout
  {
    RunKeepsCovered(c, steps);
  }

  // ---------------------------------------------------------------- getting stuck

  /** Nothing is in flight anywhere and the gate waits for a command that will not come. */
  ghost predicate Wedged(s: Lane) {
    && (s.d.gate.Processing? || s.d.gate.Validating?)
    && s.d.listener.Ready? && s.d.reader.Ready? && s.d.consumer.Ready?
    && s.d.timers == map[]
    && s.redis.channel == [] && s.redis.cursor == |s.redis.stream| && s.server.Waiting?
  }

  /** Only an operator or a restart gets a wedged lane moving: no vehicle, button, card or amount
      of time does. */
  lemma {:induction false} WedgedStaysWedged(c: Config, s: Lane, steps: seq<Step>)
    requires Wedged(s)
    requires forall step :: step in steps ==> !step.Operator? && !step.Crash?
    ensures Wedged(Exec(c, s, steps)) && Exec(c, s, steps).d.gate == s.d.gate
    decreases |steps|
  {
    if steps == [] {
    } else {
      var n := |steps| - 1;
      forall step | step in steps[..n] ensures !step.Operator? && !step.Crash? {
        assert step in steps;
      }
      WedgedStaysWedged(c, s, steps[..n]);
      assert steps[n] in steps;
      WedgedStep(c, Exec(c, s, steps[..n]), steps[n]);
    }
  }

  lemma WedgedStep(c: Config, s: Lane, step: Step)
    requires Wedged(s) && !step.Operator? && !step.Crash?
    ensures Wedged(Apply(c, s, step)) && Apply(c, s, step).d.gate == s.d.gate
  {
  }

  lemma ExecFour(c: Config, s: Lane, p: Step, q: Step, r: Step, t: Step)
    ensures Exec(c, s, [p, q, r, t]) == Apply(c, Apply(c, Apply(c, Apply(c, s, p), q), r), t)
  {
    var steps := [p, q, r, t];
    assert steps[..3][..2] == steps[..2] && steps[..2][..1] == steps[..1];
    assert steps[..1][..0] == [];
    assert Exec(c, s, steps[..1]) == Apply(c, s, p);
    assert Exec(c, s, steps[..2]) == Apply(c, Exec(c, s, steps[..1]), q);
    assert Exec(c, s, steps[..3]) == Apply(c, Exec(c, s, steps[..2]), r);
  }

  /** PROCESSING has no timeout: a ticket event that is lost on the channel wedges the lane,
      with every Redis call having succeeded. */
  lemma LostTicketEventWedges(c: Config, arrival: string, press: string)
    requires Compass.Classify(arrival) == Compass.In1On && Compass.Classify(press) == Compass.In2On
    ensures var run := [Sense(arrival), Resume(Listener), Sense(press), Publish(Listener)];
      var s := Apply(c, Exec(c, START, run), EventLost(0));
      Wedged(s) && s.d.gate.Processing?
  {
    ExecFour(c, START, Sense(arrival), Resume(Listener), Sense(press), Publish(Listener));
    var s1 := Apply(c, Apply(c, START, Sense(arrival)), Resume(Listener));
    assert s1.d == NEW_LIFE.(gate := WaitingInput, in1On := true);
    var s2 := Apply(c, Apply(c, s1, Sense(press)), Publish(Listener));
    assert s2.d == NEW_LIFE.(gate := Processing, in1On := true);
    assert |s2.redis.channel| == 1;
  }

  lemma ArrivalWaits(c: Config, arrival: string)
    requires Compass.Classify(arrival) == Compass.In1On
    ensures var s := Apply(c, Apply(c, START, Sense(arrival)), Resume(Listener));
      s == START.(d := NEW_LIFE.(gate := WaitingInput, in1On := true), book := s.book)
  {
  }

  lemma AbandonedIsWedged(c: Config, s: Lane)
    requires s.d.gate.Validating? && s.d.listener.Telling?
    requires s.d == NEW_LIFE.(gate := Validating, in1On := true, listener := s.d.listener)
    requires s == START.(d := s.d, book := s.book)
    ensures var s' := Apply(c, s, RedisFails(Listener)); Wedged(s') && s'.d.gate.Validating?
  {
    var s' := Apply(c, s, RedisFails(Listener));
    assert s' == s.(d := s.d.(listener := Ready));
  }

  lemma TapValidates(c: Config, s: Lane, tap: string)
    requires c.hasRfid && s.d.gate.WaitingInput? && s.d.listener.Ready? && Compass.Classify(tap).Card?
    ensures var s' := Apply(c, s, Sense(tap));
      && s'.d.listener.Telling? && s'.d == s.d.(gate := Validating, listener := s'.d.listener)
      && s' == s.(d := s'.d, book := s'.book)
  {
  }

  /** VALIDATING does get stuck once a Redis call raises: the card handler is abandoned between
      the transition and the start of its timeout. */
  lemma RedisFailureWedges(c: Config, arrival: string, tap: string)
    requires c.hasRfid && Compass.Classify(arrival) == Compass.In1On
    requires Compass.Classify(tap).Card?
    ensures var s := Exec(c, START, [Sense(arrival), Resume(Listener), Sense(tap),
                                     RedisFails(Listener)]);
      Wedged(s) && s.d.gate.Validating?
  {
    ExecFour(c, START, Sense(arrival), Resume(Listener), Sense(tap), RedisFails(Listener));
    ArrivalWaits(c, arrival);
    var s1 := Apply(c, Apply(c, START, Sense(arrival)), Resume(Listener));
    TapValidates(c, s1, tap);
    AbandonedIsWedged(c, Apply(c, s1, Sense(tap)));
  }

  /** The ways out of PROCESSING are exactly these: a reset command taken up, an open that went
      through, a rejection shown, the help pause running out, and a restart. No sensor, card or timer
      is among them. */
  lemma LeavingProcessing(c: Config, s: Lane, step: Step)
    requires s.d.gate.Processing?
    ensures !Apply(c, s, step).d.gate.Processing?
       <==> match step
            case Crash => true
            case Resume(t) => s.d.At(t).Helping? || s.d.At(t).Fired? || s.d.At(t).Rejecting?
            case Deliver =>
              && s.d.consumer.Ready? && s.redis.cursor < |s.redis.stream|
              && s.redis.stream[s.redis.cursor].ResetGate?
            case _ => false
  {
    match step
    case Sense(text) => SignalsIgnored(c, s.d, Listener, Compass.Classify(text), s.book.exits);
    case SerialCard(card) => SignalsIgnored(c, s.d, Reader, Compass.Card(card), s.book.exits);
    case Deliver =>
      if s.redis.cursor < |s.redis.stream| && s.redis.stream[s.redis.cursor].InjectRss? {
        var signal := s.redis.stream[s.redis.cursor].signal;
        SignalsIgnored(c, s.d, Consumer, Compass.Classify(Compass.FramedText(signal)), s.book.exits);
      }
    case Resume(t) => ResumptionsThatMove(c, s.d, t, s.now);
    case _ =>
  }

  lemma SignalsIgnored(c: Config, d: Daemon, t: Task, signal: Compass.Signal, id: nat)
    requires d.gate.Processing?
    ensures OnSignal(c, d, t, signal, id).0.gate.Processing?
  {
  }

  lemma ResumptionsThatMove(c: Config, d: Daemon, t: Task, now: int)
    requires d.gate.Processing?
    ensures !OnResume(c, d, t, now).0.gate.Processing?
       <==> d.At(t).Helping? || d.At(t).Fired? || d.At(t).Rejecting?
  {
  }
}
