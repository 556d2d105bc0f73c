/** What each payment operation stores and answers, field by field, and where the charges of a run
    come from. */
module PaymentEffects {
  import opened Text
  import opened Payments
  import Tariff

  /** No row but the one at `i` differs. */
  ghost predicate OthersSame(txs: seq<Tx>, txs': seq<Tx>, i: nat) {
    |txs'| == |txs| && forall j :: 0 <= j < |txs| && j != i ==> txs'[j] == txs[j]
  }

  /** The fee of an active row, with its type overridden if the cashier says so. */
  predicate Owes(tx: Tx, override: Option<int>, types: VehicleTypes, clock: int, fee: int) {
    Tariff.TransactionFee(types, if override.Some? then override else tx.vehicleType, tx.entry, clock, tx.lost)
    == Tariff.Fee(fee)
  }

  // ---------------------------------------------------------------- lookup

  /** The barcode decides before the card, the card before the plate; an empty text is no criterion. */
  lemma FirstCriterionDecides(tx: Tx, barcode: string, card: string, key: Key)
    ensures barcode != "" ==>
      (Selects(key.(barcode := Some(barcode)), tx) <==> tx.status.Active? && tx.barcode == Some(barcode))
    ensures card != "" && key.barcode in {None, Some("")} ==>
      (Selects(key.(card := Some(card)), tx) <==> tx.status.Active? && tx.card == Some(card))
    ensures key.barcode in {None, Some("")} && key.card in {None, Some("")} ==>
      (Selects(key, tx) <==> tx.status.Active? && tx.plate == key.plate && tx.plate !in {None, Some("")})
  {
  }

  /** The lookup fails if and only if no active row matches; otherwise it returns a matching row that no
      other one entered after. */
  lemma LookupAnswers(txs: seq<Tx>, key: Key, r: nat)
    ensures Answers(txs, key, None) <==> !exists i :: 0 <= i < |txs| && Selects(key, txs[i])
    ensures r < |txs| && Selects(key, txs[r]) ==>
      (Answers(txs, key, Some(r))
       <==> !exists i :: 0 <= i < |txs| && Selects(key, txs[i]) && txs[i].entry > txs[r].entry)
  {
  }

  // ---------------------------------------------------------------- entry

  /** Whether an active row has the card or the barcode already. */
  ghost predicate Occupied(txs: seq<Tx>, barcode: Option<string>, card: Option<string>) {
    exists i :: 0 <= i < |txs| && txs[i].status.Active?
                && ((card.Some? && txs[i].card == card) || (barcode.Some? && txs[i].barcode == barcode))
  }

  /** An entry is stored behind the other rows, unpaid, unless an active row clashes with it. */
  lemma EntryStored(s: Store, op: Op)
    requires op.Enter?
    ensures var (s', reply) := Apply(s, op);
      if Occupied(s.txs, op.barcode, op.card) then s' == s && reply == Aborted
      else
        && reply == Entered(|s.txs|) && |s'.txs| == |s.txs| + 1 && s.txs <= s'.txs
        && s' == s.(txs := s'.txs)
        && var tx := s'.txs[|s.txs|];
        && (tx.barcode, tx.card, tx.plate) == (op.barcode, op.card, op.plate)
        && (tx.vehicleType, tx.entry, tx.lost, tx.member) == (op.vehicleType, op.entry, op.lost, op.member)
        && tx.status.Active? && tx.payMethod == op.payMethod
        && tx.fee.None? && tx.paid.None? && tx.exit.None? && tx.emoney.None? && tx.gateOut.None?
  {
    assert Occupied(s.txs, op.barcode, op.card)
      <==> CardTaken(s.txs, -1, op.card) || BarcodeTaken(s.txs, op.barcode);
  }

  // ---------------------------------------------------------------- cash and member card

  /** How a cash payment of a row that the lookup may return is answered. */
  lemma CashAnswer(s: Store, op: Op, fee: int)
    requires op.PayCash? && Answers(s.txs, op.key, op.row)
    requires op.row.Some? ==> Owes(s.txs[op.row.value], op.override, op.types, op.clock, fee)
    ensures Apply(s, op).1
         == if !op.outcome.Commit? then Aborted
            else if op.row.None? then NoTransaction
            else if op.paid < fee then Insufficient
            else PaidCash(op.row.value, fee, op.paid - fee)
    ensures op.row.None? || !op.outcome.Commit? ==> Apply(s, op).0 == s
  {
  }

  /** A member exit completes the most recent active row of that card for nothing. */
  lemma MemberExit(s: Store, op: Op)
    requires op.PayRfid? && Apply(s, op).1.PaidRfid?
    ensures var (s', reply) := Apply(s, op);
      var i := reply.tx;
      && i < |s.txs| && s.txs[i].status.Active? && s.txs[i].card == Some(op.cardNumber)
      && (forall j :: 0 <= j < |s.txs| && s.txs[j].status.Active? && s.txs[j].card == Some(op.cardNumber) ==>
            s.txs[j].entry <= s.txs[i].entry)
      && s'.txs[i] == s.txs[i].(status := Completed, payMethod := RfidMember, fee := Some(0), paid := None,
                                exit := Some(op.exit), member := op.member, emoney := None,
                                gateOut := Some(op.gateOut))
      && op.member.Some? && OthersSame(s.txs, s'.txs, i)
      && s' == s.(txs := s'.txs, completions := s.completions + [i])
  {
    var i := op.row.value;
    forall j | 0 <= j < |s.txs| && s.txs[j].status.Active? && s.txs[j].card == Some(op.cardNumber)
      ensures s.txs[j].entry <= s.txs[i].entry
    {
      assert Selects(Key(None, Some(op.cardNumber), None), s.txs[j]);
    }
  }

  lemma MemberAnswer(s: Store, op: Op)
    requires op.PayRfid? && Answers(s.txs, Key(None, Some(op.cardNumber), None), op.row)
    ensures var (s', reply) := Apply(s, op);
      && (!reply.PaidRfid? ==> s' == s)
      && reply == if !op.outcome.Commit? then Aborted
                  else if op.member.None? then InvalidMember
                  else if op.row.None? then NoTransaction
                  else PaidRfid(op.row.value)
  {
  }

  // ---------------------------------------------------------------- arming

  /** An armed gate waits for the ticket's own row, at the fee that row owes under its type, and the
      arming changes nothing but that type and that gate's entry. */
  lemma ArmedForTicket(s: Store, op: Op)
    requires op.Arm? && Apply(s, op).1.Armed?
    ensures var (s', reply) := Apply(s, op);
      var i := reply.tx;
      && i < |s.txs| && s.txs[i].status.Active? && op.ticket != "" && s.txs[i].barcode == Some(op.ticket)
      && s'.pending == s.pending[op.gate := Pending(i, op.gateOut, reply.fee)]
      && Owes(s.txs[i], op.override, op.types, op.clock, reply.fee)
      && s'.txs[i] == s.txs[i].(vehicleType := if op.override.Some? then op.override else s.txs[i].vehicleType)
      && OthersSame(s.txs, s'.txs, i)
      && s' == s.(txs := s'.txs, pending := s'.pending)
  {
  }

  /** How an arming is answered; one that fails late has armed the gate all the same. */
  lemma ArmAnswer(s: Store, op: Op, fee: int)
    requires op.Arm? && Answers(s.txs, Key(Some(op.ticket), None, None), op.row)
    requires op.row.Some? ==> Owes(s.txs[op.row.value], op.override, op.types, op.clock, fee)
    ensures var (s', reply) := Apply(s, op);
      && reply == (if op.outcome.AbortEarly? then Aborted
                   else if op.row.None? then NoTransaction
                   else if op.outcome.AbortLate? then Aborted
                   else Armed(op.row.value, fee))
      && (op.outcome.AbortEarly? || op.row.None? ==> s' == s)
      && (op.outcome.AbortLate? && op.row.Some? ==>
            s' == s.(pending := s.pending[op.gate := Pending(op.row.value, op.gateOut, fee)]))
  {
  }

  // ---------------------------------------------------------------- the result of a deduction

  predicate Clear(s: Store, report: Report, i: nat) {
    report.card == "" || forall j :: 0 <= j < |s.txs| && j != i && s.txs[j].status.Active? ==>
      s.txs[j].card != Some(report.card)
  }

  /** How a callback is answered: by whether its row is still active, whether another active row has
      its card, and how the deduction went. */
  lemma ResultAnswer(s: Store, at: nat, exit: int)
    requires at < |s.callbacks|
    ensures var (c, (s', reply)) := (s.callbacks[at], Apply(s, Settle(at, exit, Commit)));
      var i := c.pending.tx;
      && s'.callbacks == s.callbacks[..at] + s.callbacks[at + 1..]
      && reply == if i >= |s.txs| || !s.txs[i].status.Active? then Gone
                  else if !Clear(s, c.report, i) then Aborted
                  else Settled(i, |s.rows|, c.report.status in {Success, CorrectionVerified})
  {
  }

  function FirstGate(armed: int, reported: int): int {
    if armed == 0 then reported else armed
  }

  /** A charged callback completes its row with the reported money, adds its e-money row and disarms
      its gate. */
  lemma ChargeStored(s: Store, at: nat, exit: int)
    requires at < |s.callbacks|
    requires var reply := Apply(s, Settle(at, exit, Commit)).1; reply.Settled? && reply.success
    ensures var (c, (s', reply)) := (s.callbacks[at], Apply(s, Settle(at, exit, Commit)));
      var i := reply.tx;
      && i == c.pending.tx < |s.txs| && reply.row == |s.rows|
      && s'.rows == s.rows + [EmRow(i, c.report.card, c.report.amount, c.report.status)]
      && s'.txs[i] == s.txs[i].(status := Completed, payMethod := Emoney,
                                fee := Some(c.report.amount), paid := Some(c.report.amount),
                                exit := Some(exit), member := None, emoney := Some(|s.rows|),
                                gateOut := Some(FirstGate(c.pending.gateOut, c.report.gateOut)),
                                card := if c.report.card == "" then s.txs[i].card else Some(c.report.card))
      && OthersSame(s.txs, s'.txs, i)
      && s'.pending == s.pending - {c.report.gate} && s'.completions == s.completions + [i]
  {
  }

  /** Any other callback adds its e-money row and keeps the row active; a lost contact leaves the gate
      armed, every other status disarms it. */
  lemma FailureStored(s: Store, at: nat, exit: int)
    requires at < |s.callbacks|
    requires var reply := Apply(s, Settle(at, exit, Commit)).1; reply.Settled? && !reply.success
    ensures var (c, (s', reply)) := (s.callbacks[at], Apply(s, Settle(at, exit, Commit)));
      var i := reply.tx;
      && i == c.pending.tx < |s.txs| && reply.row == |s.rows|
      && s'.rows == s.rows + [EmRow(i, c.report.card, c.report.amount, c.report.status)]
      && s'.txs[i] == s.txs[i].(card := if c.report.card == "" then s.txs[i].card else Some(c.report.card))
      && s'.txs[i].status.Active? && OthersSame(s.txs, s'.txs, i)
      && s'.pending == (if c.report.status.LostContact? then s.pending else s.pending - {c.report.gate})
      && s'.completions == s.completions
  {
  }

  /** A callback that is not answered by a settlement stores nothing, and one that aborts never is. */
  lemma RefusedResult(s: Store, at: nat, exit: int, outcome: Outcome)
    requires at < |s.callbacks|
    ensures var (s', reply) := Apply(s, Settle(at, exit, outcome));
      && (reply.Settled? ==> outcome.Commit?)
      && (outcome.AbortEarly? ==> reply == Aborted)
      && (outcome.AbortLate? ==> reply in {Aborted, Gone})
      && (!reply.Settled? ==> s' == s.(pending := s'.pending, callbacks := s'.callbacks))
  {
  }

  /** Reading a result takes a copy of the gate's entry and leaves the entry; expiry removes it. */
  lemma EntryRead(s: Store, report: Report)
    ensures Apply(s, ReadPending(report))
         == if report.gate in s.pending
            then (s.(callbacks := s.callbacks + [Callback(report, s.pending[report.gate])]), Waiting)
            else (s, NoPending)
    ensures var s' := Apply(s, Expire(report.gate)).0;
      s' == s.(pending := s'.pending) && s'.pending == s.pending - {report.gate}
  {
  }

  /** Arming, result and settlement in a row: the row completed is the one with the ticket's barcode,
      and no other row of the table changes. */
  lemma TicketIsCharged(s: Store, arm: Op, report: Report, exit: int)
    requires arm.Arm? && Apply(s, arm).1.Armed? && report.gate == arm.gate && report.status.Charged()
    requires Clear(s, report, Apply(s, arm).1.tx)
    ensures var armed := Apply(s, arm);
      var i := armed.1.tx;
      var (waiting, _) := Apply(armed.0, ReadPending(report));
      var (s', reply) := Apply(waiting, Settle(|s.callbacks|, exit, Commit));
      && reply == Settled(i, |s.rows|, true)
      && i < |s.txs| && s.txs[i].status.Active? && s.txs[i].barcode == Some(arm.ticket)
      && s'.txs[i].status.Completed? && s'.txs[i].barcode == Some(arm.ticket)
      && s'.txs[i].paid == s'.txs[i].fee == Some(report.amount) && s'.txs[i].emoney == Some(|s.rows|)
      && OthersSame(s.txs, s'.txs, i)
      && s'.rows == s.rows + [EmRow(i, report.card, report.amount, report.status)]
      && s'.pending == s.pending - {arm.gate} && s'.callbacks == s.callbacks
  {
    ArmedForTicket(s, arm);
    var (armed, i) := (Apply(s, arm).0, Apply(s, arm).1.tx);
    var waiting := Apply(armed, ReadPending(report)).0;
    var at := |s.callbacks|;
    assert waiting.callbacks == s.callbacks + [Callback(report, armed.pending[arm.gate])];
    ResultAnswer(waiting, at, exit);
    ChargeStored(waiting, at, exit);
  }

  // ---------------------------------------------------------------- over whole runs

  /** A run applies its operations one after the other, the last one last. */
  lemma OneMoreOp(s: Store, ops: seq<Op>, op: Op)
    ensures Exec(s, []) == s && Exec(s, ops + [op]) == Apply(Exec(s, ops), op).0
  {
    assert (ops + [op])[..|ops|] == ops;
  }

  predicate ArmedBy(op: Op, txs: seq<Tx>, gate: string, entry: Pending) {
    && op.Arm? && op.gate == gate && op.gateOut == entry.gateOut
    && entry.tx < |txs| && txs[entry.tx].barcode == Some(op.ticket)
  }

  ghost predicate Stems(ops: seq<Op>, txs: seq<Tx>, gate: string, entry: Pending) {
    exists k :: 0 <= k < |ops| && ArmedBy(ops[k], txs, gate, entry)
  }

  /** Every entry and every result under way stems from an arming of that gate. */
  ghost predicate Traced(s: Store, ops: seq<Op>) {
    && (forall gate :: gate in s.pending ==> Stems(ops, s.txs, gate, s.pending[gate]))
    && (forall k :: 0 <= k < |s.callbacks| ==>
          Stems(ops, s.txs, s.callbacks[k].report.gate, s.callbacks[k].pending))
  }

  ghost predicate BarcodesStay(txs: seq<Tx>, txs': seq<Tx>) {
    |txs| <= |txs'| && forall i :: 0 <= i < |txs| ==> txs'[i].barcode == txs[i].barcode
  }

  lemma BarcodesKept(s: Store, op: Op)
    ensures BarcodesStay(s.txs, Apply(s, op).0.txs)
  {
  }

  lemma StemsOn(ops: seq<Op>, op: Op, txs: seq<Tx>, txs': seq<Tx>, gate: string, entry: Pending)
    requires Stems(ops, txs, gate, entry) && BarcodesStay(txs, txs')
    ensures Stems(ops + [op], txs', gate, entry)
  {
    var k :| 0 <= k < |ops| && ArmedBy(ops[k], txs, gate, entry);
    assert ArmedBy((ops + [op])[k], txs', gate, entry);
  }

  /** Only an arming writes an entry. */
  lemma EntriesFrom(s: Store, op: Op, gate: string)
    requires gate in Apply(s, op).0.pending
    ensures var s' := Apply(s, op).0;
      (gate in s.pending && s'.pending[gate] == s.pending[gate]) || ArmedBy(op, s'.txs, gate, s'.pending[gate])
  {
  }

  /** Only a read of the gate's entry starts a callback. */
  lemma CallbacksFrom(s: Store, op: Op, c: Callback)
    requires c in Apply(s, op).0.callbacks
    ensures c in s.callbacks || (c.report.gate in s.pending && c.pending == s.pending[c.report.gate])
  {
  }

  lemma TracedOn(s: Store, ops: seq<Op>, op: Op)
    requires Traced(s, ops)
    ensures Traced(Apply(s, op).0, ops + [op])
  {
    var (s', ops') := (Apply(s, op).0, ops + [op]);
    BarcodesKept(s, op);
    forall gate | gate in s'.pending ensures Stems(ops', s'.txs, gate, s'.pending[gate]) {
      EntriesFrom(s, op, gate);
      if ArmedBy(op, s'.txs, gate, s'.pending[gate]) {
        assert ArmedBy(ops'[|ops|], s'.txs, gate, s'.pending[gate]);
      } else {
        StemsOn(ops, op, s.txs, s'.txs, gate, s.pending[gate]);
      }
    }
    forall k | 0 <= k < |s'.callbacks|
      ensures Stems(ops', s'.txs, s'.callbacks[k].report.gate, s'.callbacks[k].pending)
    {
      var c := s'.callbacks[k];
      CallbacksFrom(s, op, c);
      StemsOn(ops, op, s.txs, s'.txs, c.report.gate, c.pending);
    }
  }

  lemma {:induction false} RunTraced(ops: seq<Op>)
    ensures Traced(Exec(EMPTY, ops), ops)
    decreases |ops|
  {
    if ops == [] {
    } else {
      var n := |ops| - 1;
      RunTraced(ops[..n]);
      TracedOn(Exec(EMPTY, ops[..n]), ops[..n], ops[n]);
      assert ops == ops[..n] + [ops[n]];
    }
  }

  /** In every run, however callbacks, armings, expiries and aborts interleave, a settled result is
      booked on the row of a ticket for which its own gate was armed before. */
  lemma EverySettledResultWasArmed(ops: seq<Op>, at: nat, exit: int)
    requires var s := Exec(EMPTY, ops);
      at < |s.callbacks| && Apply(s, Settle(at, exit, Commit)).1.Settled?
    ensures var s := Exec(EMPTY, ops);
      var (c, (s', reply)) := (s.callbacks[at], Apply(s, Settle(at, exit, Commit)));
      && reply.tx < |s.txs| && OthersSame(s.txs, s'.txs, reply.tx)
      && exists k :: 0 <= k < |ops| && ops[k].Arm? && ops[k].gate == c.report.gate
                     && s.txs[reply.tx].barcode == Some(ops[k].ticket)
  {
    RunTraced(ops);
    var s := Exec(EMPTY, ops);
    var c := s.callbacks[at];
    assert Stems(ops, s.txs, c.report.gate, c.pending);
    var k :| 0 <= k < |ops| && ArmedBy(ops[k], s.txs, c.report.gate, c.pending);
  }
}
