/** What the exit payment protocol does not guarantee, with the exact conditions. */
module PaymentLimits {
  import opened Text
  import opened Payments
  import Tariff

  /** The section does not fail on the unique index of active cards. */
  predicate CardFree(s: Store, report: Report, i: nat) {
    report.card == "" || !CardTaken(s.txs, i, Some(report.card))
  }

  /** The fee that was armed is not enforced: the deducted amount of the report becomes fee and
      paid amount, whatever was quoted. */
  lemma ArmedFeeNotEnforced(s: Store, report: Report, pending: Pending, exit: int)
    requires pending.tx < |s.txs| && s.txs[pending.tx].status.Active?
    requires report.status.Charged() && CardFree(s, report, pending.tx)
    ensures var tx := SettleOn(s, report, pending, exit, Commit).0.txs[pending.tx];
      && tx.fee == tx.paid == Some(report.amount as int)
      && (tx.fee == Some(pending.fee) <==> report.amount == pending.fee)
  {
  }

  predicate StillActive(s: Store, i: nat) {
    i < |s.txs| && s.txs[i].status.Active?
  }

  /** When a result callback clears the entry of its gate: always if its transaction is gone, and
      otherwise unless the card clashes or contact was lost; an abort at the end changes nothing
      about that. No other gate's entry changes. */
  lemma PendingClearedIff(s: Store, report: Report, pending: Pending, exit: int, outcome: Outcome)
    requires report.gate in s.pending
    ensures var s' := SettleOn(s, report, pending, exit, outcome).0;
      && (report.gate !in s'.pending
          <==> !outcome.AbortEarly?
               && (!StillActive(s, pending.tx)
                   || (CardFree(s, report, pending.tx) && !report.status.LostContact?)))
      && (s'.pending == s.pending || s'.pending == s.pending - {report.gate})
  {
  }

  /** The entry is cleared by gate, not by transaction: a callback that read an older entry takes a
      newer arming of the gate with it, exactly under the same condition. */
  lemma NewerArmingLostIff(s: Store, at: nat, exit: int, outcome: Outcome)
    requires at < |s.callbacks|
    requires var c := s.callbacks[at];
      c.report.gate in s.pending && s.pending[c.report.gate].tx != c.pending.tx
    ensures var (c, s') := (s.callbacks[at], Apply(s, Settle(at, exit, outcome)).0);
      c.report.gate !in s'.pending
      <==> !outcome.AbortEarly?
           && (!StillActive(s, c.pending.tx)
               || (CardFree(s, c.report, c.pending.tx) && !c.report.status.LostContact?))
  {
    var (c, rest) := (s.callbacks[at], s.callbacks[..at] + s.callbacks[at + 1..]);
    PendingClearedIff(s.(callbacks := rest), c.report, c.pending, exit, outcome);
  }

  /** In particular a callback whose transaction is gone or completed disarms the gate. */
  lemma LateCallbackDisarms(s: Store, report: Report, stale: Pending, exit: int)
    requires report.gate in s.pending && s.pending[report.gate].tx != stale.tx && !StillActive(s, stale.tx)
    ensures SettleOn(s, report, stale, exit, Commit)
         == (s.(pending := s.pending - {report.gate}), Gone)
  {
  }

  /** And so does a timeout reported for a transaction that is still active. */
  lemma TimeoutDisarms(s: Store, report: Report, stale: Pending, exit: int)
    requires report.gate in s.pending && s.pending[report.gate].tx != stale.tx && StillActive(s, stale.tx)
    requires CardFree(s, report, stale.tx) && report.status.Timeout?
    ensures SettleOn(s, report, stale, exit, Commit).1 == Settled(stale.tx, |s.rows|, false)
    ensures report.gate !in SettleOn(s, report, stale, exit, Commit).0.pending
  {
  }

  /** A cash payment that is refused as too low leaves the tables alone if and only if no override
      was given or it equals the stored type: the override outlives the refusal. */
  lemma RefusedCashUnchangedIff(s: Store, key: Key, i: nat, paid: int, override: Option<int>,
                                types: VehicleTypes, clock: int, exit: int, gateOut: int)
    requires i < |s.txs|
    requires Apply(s, PayCash(key, Some(i), paid, override, types, clock, exit, gateOut, Commit)).1.Insufficient?
    ensures Apply(s, PayCash(key, Some(i), paid, override, types, clock, exit, gateOut, Commit)).0 == s
       <==> override.None? || override == s.txs[i].vehicleType
  {
    assert Apply(s, PayCash(key, Some(i), paid, override, types, clock, exit, gateOut, Commit)).0
        == s.(txs := s.txs[i := Overridden(s.txs[i], override)]);
    assert s.txs[i := s.txs[i]] == s.txs;
  }

  const PARKED := Tx(Some("A"), None, None, Some(1), 0, false, Active, PendingMethod,
                     None, None, None, None, None, None)

  const OFFER := PayCash(Key(Some("A"), None, None), Some(0), 0, Some(2), map[], Tariff.HOUR,
                         Tariff.HOUR, 1, Commit)

  /** An hour's stay of vehicle type 1, offered nothing as type 2: refused, and now of type 2. */
  lemma RefusedCashChangesType()
    ensures Apply(EMPTY.(txs := [PARKED]), OFFER)
         == (EMPTY.(txs := [PARKED.(vehicleType := Some(2))]), Insufficient)
  {
    var retyped := PARKED.(vehicleType := Some(2));
    Tariff.TransactionFeeTotal(map[], Some(2), 0, Tariff.HOUR, false);
    assert FeeAt(map[], retyped, Tariff.HOUR) == 5000;
    assert [PARKED][0 := retyped] == [retyped];
    assert Answers([PARKED], Key(Some("A"), None, None), Some(0));
  }
}
