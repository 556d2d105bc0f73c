/** The payment service as an object over its tables: lookups are loops over rows, payments
    update rows in place. Each method does what the protocol's operation of the same name says
    for a database transaction that commits. */
module PaymentServices {
  import opened Text
  import opened Payments
  import Tariff

  class PaymentService {
    var txs: seq<Tx>
    var rows: seq<EmRow>
    var pending: map<string, Pending>
    var callbacks: seq<Callback>
    var completions: seq<nat>

    function View(): Store
      reads this
    {
      Store(txs, rows, pending, callbacks, completions)
    }

    constructor ()
      ensures View() == EMPTY
    {
      txs, rows, pending, callbacks, completions := [], [], map[], [], [];
    }

    /** The most recent active row the first given criterion selects. */
    method FindActiveTransaction(key: Key) returns (row: Option<nat>)
      ensures Answers(txs, key, row)
    {
      row := None;
      for i := 0 to |txs|
        invariant Answers(txs[..i], key, row)
      {
        if Selects(key, txs[i]) && (row.None? || txs[row.value].entry < txs[i].entry) {
          row := Some(i);
        }
        assert txs[..i + 1] == txs[..i] + [txs[i]];
      }
      assert txs[..|txs|] == txs;
    }

    method CompleteExit(i: nat, gateOut: int, payMethod: Method, fee: int, paid: Option<int>,
                        member: Option<nat>, emoney: Option<nat>, exit: int)
      requires i < |txs|
      modifies this
      ensures View() == Finish(old(View()), i, Complete(old(txs)[i], gateOut, payMethod, fee, paid,
                                                        member, emoney, exit))
    {
      var tx := txs[i];
      tx := tx.(gateOut := Some(gateOut), exit := Some(exit), payMethod := payMethod);
      tx := tx.(fee := Some(fee), paid := paid, member := member, emoney := emoney);
      txs := txs[i := tx.(status := Completed)];
      completions := completions + [i];
    }

    method ProcessCashPayment(key: Key, paid: int, override: Option<int>, types: VehicleTypes,
                              clock: int, exit: int, gateOut: int)
      returns (reply: Reply, row: Option<nat>)
      modifies this
      ensures Answers(old(txs), key, row)
      ensures (View(), reply) == Apply(old(View()), PayCash(key, row, paid, override, types, clock,
                                                            exit, gateOut, Commit))
    {
      row := FindActiveTransaction(key);
      if row.None? { return NoTransaction, row; }
      var i := row.value;
      if override.Some? {
        txs := txs[i := txs[i].(vehicleType := override)];
      }
      var fee := FeeAt(types, txs[i], clock);
      assert txs == old(txs)[i := txs[i]];
      if paid < fee { return Insufficient, row; }
      CompleteExit(i, gateOut, Cash, fee, Some(paid), None, None, exit);
      assert txs == old(txs)[i := txs[i]];
      reply := PaidCash(i, fee, Tariff.Max(0, paid - fee));
    }

    method ProcessRfidPayment(card: string, member: Option<nat>, exit: int, gateOut: int)
      returns (reply: Reply, row: Option<nat>)
      modifies this
      ensures Answers(old(txs), Key(None, Some(card), None), row)
      ensures (View(), reply) == Apply(old(View()), PayRfid(card, row, member, exit, gateOut, Commit))
    {
      row := FindActiveTransaction(Key(None, Some(card), None));
      if member.None? { return InvalidMember, row; }
      if row.None? { return NoTransaction, row; }
      CompleteExit(row.value, gateOut, RfidMember, 0, None, member, None, exit);
      reply := PaidRfid(row.value);
    }

    method ProcessEmoneyDeduct(gate: string, ticket: string, override: Option<int>,
                               types: VehicleTypes, clock: int, gateOut: int)
      returns (reply: Reply, row: Option<nat>)
      modifies this
      ensures Answers(old(txs), Key(Some(ticket), None, None), row)
      ensures (View(), reply) == Apply(old(View()), Arm(gate, ticket, row, override, types, clock,
                                                        gateOut, Commit))
    {
      row := FindActiveTransaction(Key(Some(ticket), None, None));
      if row.None? { return NoTransaction, row; }
      var i := row.value;
      if override.Some? {
        txs := txs[i := txs[i].(vehicleType := override)];
      }
      var fee := FeeAt(types, txs[i], clock);
      assert txs == old(txs)[i := txs[i]];
      pending := pending[gate := Pending(i, gateOut, fee)];
      reply := Armed(i, fee);
    }

    /** The first half of a result callback. */
    method ReadPendingEntry(report: Report) returns (reply: Reply)
      modifies this
      ensures (View(), reply) == Apply(old(View()), ReadPending(report))
    {
      if report.gate !in pending { return NoPending; }
      callbacks := callbacks + [Callback(report, pending[report.gate])];
      reply := Waiting;
    }

    /** The second half, under the row lock. */
    method LockedSection(at: nat, exit: int) returns (reply: Reply)
      requires at < |callbacks|
      modifies this
      ensures (View(), reply) == Apply(old(View()), Settle(at, exit, Commit))
    {
      var report, entry := callbacks[at].report, callbacks[at].pending;
      callbacks := callbacks[..at] + callbacks[at + 1..];
      var i := entry.tx;
      if i >= |txs| || !txs[i].status.Active? {
        pending := pending - {report.gate};
        return Gone;
      }
      if report.card != "" {
        if CardTaken(txs, i, Some(report.card)) { return Aborted; }
        txs := txs[i := txs[i].(card := Some(report.card))];
      }
      assert txs == old(txs)[i := txs[i]];
      var e := |rows|;
      rows := rows + [EmRow(i, report.card, report.amount, report.status)];
      if report.status.Charged() {
        var gateOut := if entry.gateOut != 0 then entry.gateOut else report.gateOut;
        CompleteExit(i, gateOut, Emoney, report.amount, Some(report.amount), None, Some(e), exit);
        assert txs == old(txs)[i := txs[i]];
        pending := pending - {report.gate};
      } else if !report.status.LostContact? {
        pending := pending - {report.gate};
      }
      reply := Settled(i, e, report.status.Charged());
    }
  }
}
