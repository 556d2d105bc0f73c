/** What every run of the exit payment protocol guarantees. */
module PaymentResults {
  import opened Text
  import opened Payments
  import Tariff

  /** Under every interleaving each parking transaction is completed at most once, and from then
      on its row, with status, method, fee, paid amount, exit time and e-money link, never
      changes. */
  lemma CompletedOnceAndForAll(ops: seq<Op>, later: seq<Op>, i: nat)
    ensures var s := Exec(EMPTY, ops);
      var s' := Exec(s, later);
      && (i < |s.txs| && s.txs[i].status.Completed? ==> i < |s'.txs| && s'.txs[i] == s.txs[i])
      && (forall k, m :: 0 <= k < m < |s.completions| ==> s.completions[k] != s.completions[m])
      && (i in s.completions <==> i < |s.txs| && s.txs[i].status.Completed?)
      && s.completions <= s'.completions
  {
    RunKeepsSound(ops);
    RunExtends(Exec(EMPTY, ops), later);
  }

  predicate Charges(s: Store, e: nat, i: nat) {
    e < |s.rows| && s.rows[e].status.Charged() && s.rows[e].parking == i
  }

  /** Row `e` and transaction `i` are linked and agree on the money. */
  predicate PaidBy(s: Store, e: nat, i: nat) {
    && e < |s.rows| && i < |s.txs|
    && s.txs[i].emoney == Some(e)
    && s.txs[i].fee == Some(s.rows[e].amount as int) && s.txs[i].paid == s.txs[i].fee
  }

  predicate CompletedByEmoney(tx: Tx) {
    tx.status.Completed? && tx.payMethod.Emoney?
  }

  /** Money: a transaction is completed by e-money exactly if a charged row belongs to it, there
      is never more than one such row, fee, paid amount and deducted amount agree, and the sum of
      all successful deductions is the sum of the e-money fees. */
  lemma EmoneyAccounting(ops: seq<Op>)
    ensures var s := Exec(EMPTY, ops);
      && (forall i :: 0 <= i < |s.txs| ==>
            (CompletedByEmoney(s.txs[i]) <==> exists e: nat :: Charges(s, e, i)))
      && (forall e: nat, e': nat, i: nat :: Charges(s, e, i) && Charges(s, e', i) ==> e == e')
      && (forall e: nat, i: nat :: Charges(s, e, i) ==> PaidBy(s, e, i))
      && Deducted(s.rows) == EmoneyFees(s.txs)
  {
    RunKeepsSound(ops);
    var s := Exec(EMPTY, ops);
    forall e: nat, i: nat | Charges(s, e, i)
      ensures PaidBy(s, e, i) && CompletedByEmoney(s.txs[i])
    {
      assert ChargeSound(s.rows[e], e, s.txs);
      assert RowSound(s.txs[i], i, s.rows);
    }
    forall i | 0 <= i < |s.txs| && CompletedByEmoney(s.txs[i])
      ensures exists e: nat :: Charges(s, e, i)
    {
      assert RowSound(s.txs[i], i, s.rows);
      assert Charges(s, s.txs[i].emoney.value, i);
    }
  }

  /** Cash rows were paid in full and the change is what was paid beyond the fee; member rows
      cost nothing. */
  lemma CashAndMemberRows(ops: seq<Op>, i: nat)
    requires i < |Exec(EMPTY, ops).txs| && Exec(EMPTY, ops).txs[i].status.Completed?
    ensures var tx := Exec(EMPTY, ops).txs[i];
      && (tx.payMethod.Cash? ==> tx.fee.Some? && tx.paid.Some? && tx.paid.value >= tx.fee.value)
      && (tx.payMethod.RfidMember? ==> tx.fee == Some(0) && tx.paid.None?)
      && !tx.payMethod.PendingMethod?
  {
    RunKeepsSound(ops);
    assert RowSound(Exec(EMPTY, ops).txs[i], i, Exec(EMPTY, ops).rows);
  }

  /** A cash payment completes the row it found, stores the fee of which the reply speaks and the
      money handed over, and touches nothing else. */
  lemma CashChange(s: Store, op: Op)
    requires op.PayCash? && Apply(s, op).1.PaidCash?
    ensures var (s', reply) := Apply(s, op);
      && reply.tx < |s.txs| && s.txs[reply.tx].status.Active? && Selects(op.key, s.txs[reply.tx])
      && s'.txs[reply.tx]
         == s.txs[reply.tx].(status := Completed, payMethod := Cash, fee := Some(reply.fee),
                             paid := Some(op.paid), exit := Some(op.exit), gateOut := Some(op.gateOut),
                             member := None, emoney := None,
                             vehicleType := if op.override.Some? then op.override
                                            else s.txs[reply.tx].vehicleType)
      && |s'.txs| == |s.txs| && (forall j :: 0 <= j < |s.txs| && j != reply.tx ==> s'.txs[j] == s.txs[j])
      && s' == s.(txs := s'.txs, completions := s.completions + [reply.tx])
      && reply.change == op.paid - reply.fee && reply.change >= 0
      && Tariff.TransactionFee(op.types, s'.txs[reply.tx].vehicleType, s.txs[reply.tx].entry,
                               op.clock, s.txs[reply.tx].lost) == Tariff.Fee(reply.fee)
  {
    var tx := Overridden(s.txs[op.row.value], op.override);
    Tariff.TransactionFeeTotal(op.types, tx.vehicleType, tx.entry, op.clock, tx.lost);
  }

  /** In every run a ticket barcode selects at most one row, so cash and e-money payments by
      barcode work on the transaction of that ticket. */
  lemma BarcodeSelectsOne(ops: seq<Op>, barcode: string, i: nat, j: nat)
    requires var s := Exec(EMPTY, ops);
      && i < |s.txs| && j < |s.txs| && barcode != ""
      && Selects(Key(Some(barcode), None, None), s.txs[i])
      && Selects(Key(Some(barcode), None, None), s.txs[j])
    ensures i == j
  {
    RunKeepsSound(ops);
  }
}
