/** The exit payment protocol: the table of parking transactions, the table of e-money rows, the
    per-gate pending entries in Redis, and the operations on them. A run is any sequence of
    operations; duplicated callbacks, expiry and aborted database transactions are included. */
module Payments {
  import opened Text
  import Tariff

  // ---------------------------------------------------------------- tables

  datatype Status = Active | Completed
  datatype Method = Cash | RfidMember | Emoney | PendingMethod

  datatype Tx = Tx(
    barcode: Option<string>, card: Option<string>, plate: Option<string>,
    vehicleType: Option<int>, entry: int, lost: bool,
    status: Status, payMethod: Method,
    fee: Option<int>, paid: Option<int>, exit: Option<int>,
    member: Option<nat>, emoney: Option<nat>, gateOut: Option<int>)

  datatype DeductStatus =
    | Success | LostContact | CorrectionVerified | CorrectionFailed
    | WrongCard | InsufficientBalance | Timeout | Failed
  {
    /** The card has been charged. */
    predicate Charged() { Success? || CorrectionVerified? }
  }

  datatype EmRow = EmRow(parking: nat, card: string, amount: nat, status: DeductStatus)

  datatype Pending = Pending(tx: nat, gateOut: int, fee: int)

  /** A deduct result as the booth or the cashier screen reports it. */
  datatype Report = Report(gate: string, gateOut: int, card: string, status: DeductStatus, amount: nat)

  /** A result callback between its read of the pending entry and its locked section. */
  datatype Callback = Callback(report: Report, pending: Pending)

  /** Rows are identified by their position; no operation deletes one. */
  datatype Store = Store(
    txs: seq<Tx>, rows: seq<EmRow>, pending: map<string, Pending>, callbacks: seq<Callback>,
    completions: seq<nat>)       // history: transactions in the order they were completed

  const EMPTY := Store([], [], map[], [], [])

  // ---------------------------------------------------------------- lookup

  datatype Key = Key(barcode: Option<string>, card: Option<string>, plate: Option<string>)

  predicate Given(s: Option<string>) { s.Some? && s.value != "" }

  /** An active row that a lookup selects; the first criterion that is given decides alone. */
  predicate Selects(key: Key, tx: Tx) {
    tx.status.Active? &&
    if Given(key.barcode) then tx.barcode == key.barcode
    else if Given(key.card) then tx.card == key.card
    else if Given(key.plate) then tx.plate == key.plate
    else false
  }

  /** What the lookup query may return: nothing if no row is selected, else one of the most
      recent selected rows. */
  ghost predicate Answers(txs: seq<Tx>, key: Key, row: Option<nat>) {
    match row
    case None => forall i :: 0 <= i < |txs| ==> !Selects(key, txs[i])
    case Some(r) =>
      && r < |txs| && Selects(key, txs[r])
      && forall i :: 0 <= i < |txs| && Selects(key, txs[i]) ==> txs[i].entry <= txs[r].entry
  }

  // ---------------------------------------------------------------- operations

  /** How the database transaction around an operation ends: it commits, it fails before any
      effect, or it fails after the Redis effects, which are not rolled back. */
  datatype Outcome = Commit | AbortEarly | AbortLate

  type VehicleTypes = map<int, Tariff.VehicleType>

  datatype Op =
    | Enter(barcode: Option<string>, card: Option<string>, plate: Option<string>,
            vehicleType: Option<int>, entry: int, lost: bool, payMethod: Method, member: Option<nat>)
    | PayCash(key: Key, row: Option<nat>, paid: int, override: Option<int>, types: VehicleTypes,
              clock: int, exit: int, gateOut: int, outcome: Outcome)
    | PayRfid(cardNumber: string, row: Option<nat>, member: Option<nat>, exit: int, gateOut: int,
              outcome: Outcome)
    | Arm(gate: string, ticket: string, row: Option<nat>, override: Option<int>,
          types: VehicleTypes, clock: int, gateOut: int, outcome: Outcome)
    | ReadPending(report: Report)
    | Settle(at: nat, exit: int, outcome: Outcome)
    | Expire(gate: string)

  datatype Reply =
    | Entered(tx: nat)
    | PaidCash(tx: nat, fee: int, change: int)
    | PaidRfid(tx: nat)
    | Armed(tx: nat, fee: int)
    | Waiting
    | Settled(tx: nat, row: nat, success: bool)
    | NoTransaction | InvalidMember | Insufficient | NoPending | Gone
    | Aborted
    | NotEnabled

  predicate CardTaken(txs: seq<Tx>, except: int, card: Option<string>) {
    card.Some? && exists i :: 0 <= i < |txs| && i != except && txs[i].status.Active? && txs[i].card == card
  }

  predicate BarcodeTaken(txs: seq<Tx>, barcode: Option<string>) {
    barcode.Some? && exists i :: 0 <= i < |txs| && txs[i].status.Active? && txs[i].barcode == barcode
  }

  function Overridden(tx: Tx, override: Option<int>): Tx {
    if override.Some? then tx.(vehicleType := override) else tx
  }

  function FeeAt(types: VehicleTypes, tx: Tx, clock: int): int {
    Tariff.TransactionFeeTotal(types, tx.vehicleType, tx.entry, clock, tx.lost);
    Tariff.TransactionFee(types, tx.vehicleType, tx.entry, clock, tx.lost).amount
  }

  function Complete(tx: Tx, gateOut: int, payMethod: Method, fee: int, paid: Option<int>,
                    member: Option<nat>, emoney: Option<nat>, exit: int): Tx
  {
    tx.(gateOut := Some(gateOut), exit := Some(exit), payMethod := payMethod, fee := Some(fee),
        paid := paid, member := member, emoney := emoney, status := Completed)
  }

  function Finish(s: Store, i: nat, tx: Tx): Store
    requires i < |s.txs|
  {
    s.(txs := s.txs[i := tx], completions := s.completions + [i])
  }

  function EnterTx(s: Store, tx: Tx): (Store, Reply) {
    if CardTaken(s.txs, -1, tx.card) || BarcodeTaken(s.txs, tx.barcode) then (s, Aborted)
    else (s.(txs := s.txs + [tx]), Entered(|s.txs|))
  }

  /** A rejected cash payment keeps the vehicle-type override: the error is answered, not
      raised, so the session commits. */
  function CashOn(s: Store, i: nat, paid: int, override: Option<int>, types: VehicleTypes,
                  clock: int, exit: int, gateOut: int): (Store, Reply)
    requires i < |s.txs|
  {
    var tx := Overridden(s.txs[i], override);
    var fee := FeeAt(types, tx, clock);
    if paid < fee then (s.(txs := s.txs[i := tx]), Insufficient)
    else
      (Finish(s, i, Complete(tx, gateOut, Cash, fee, Some(paid), None, None, exit)),
       PaidCash(i, fee, Tariff.Max(0, paid - fee)))
  }

  function RfidOn(s: Store, i: nat, member: nat, exit: int, gateOut: int): (Store, Reply)
    requires i < |s.txs|
  {
    (Finish(s, i, Complete(s.txs[i], gateOut, RfidMember, 0, None, Some(member), None, exit)),
     PaidRfid(i))
  }

  function ArmOn(s: Store, i: nat, gate: string, override: Option<int>, types: VehicleTypes,
                 clock: int, gateOut: int, outcome: Outcome): (Store, Reply)
    requires i < |s.txs|
  {
    var tx := Overridden(s.txs[i], override);
    var fee := FeeAt(types, tx, clock);
    var armed := s.(pending := s.pending[gate := Pending(i, gateOut, fee)]);
    if outcome.AbortLate? then (armed, Aborted)
    else (armed.(txs := s.txs[i := tx]), Armed(i, fee))
  }

  function WithCard(tx: Tx, card: string): Tx {
    if card != "" then tx.(card := Some(card)) else tx
  }

  /** The locked section of a result callback. */
  function SettleOn(s: Store, report: Report, pending: Pending, exit: int, outcome: Outcome)
    : (Store, Reply)
  {
    var i := pending.tx;
    var cleared := s.(pending := s.pending - {report.gate});
    if outcome.AbortEarly? then (s, Aborted)
    else if i >= |s.txs| || !s.txs[i].status.Active? then (cleared, Gone)
    else if report.card != "" && CardTaken(s.txs, i, Some(report.card)) then (s, Aborted)
    else
      var tx := WithCard(s.txs[i], report.card);
      var e := |s.rows|;
      var inserted := s.(rows := s.rows + [EmRow(i, report.card, report.amount, report.status)]);
      var gateOut := if pending.gateOut != 0 then pending.gateOut else report.gateOut;
      if report.status.Charged() then
        var done := Complete(tx, gateOut, Emoney, report.amount, Some(report.amount), None, Some(e), exit);
        if outcome.AbortLate? then (cleared, Aborted)
        else (Finish(inserted.(pending := cleared.pending), i, done), Settled(i, e, true))
      else
        var kept := if report.status.LostContact? then s.pending else cleared.pending;
        if outcome.AbortLate? then (s.(pending := kept), Aborted)
        else (inserted.(txs := s.txs[i := tx], pending := kept), Settled(i, e, false))
  }

  ghost function Apply(s: Store, op: Op): (Store, Reply) {
    match op
    case Enter(barcode, card, plate, vehicleType, entry, lost, payMethod, member) =>
      EnterTx(s, Tx(barcode, card, plate, vehicleType, entry, lost, Active, payMethod,
                    None, None, None, member, None, None))
    case PayCash(key, row, paid, override, types, clock, exit, gateOut, outcome) =>
      if !Answers(s.txs, key, row) then (s, NotEnabled)
      else if !outcome.Commit? then (s, Aborted)
      else if row.None? then (s, NoTransaction)
      else CashOn(s, row.value, paid, override, types, clock, exit, gateOut)
    case PayRfid(card, row, member, exit, gateOut, outcome) =>
      if !Answers(s.txs, Key(None, Some(card), None), row) then (s, NotEnabled)
      else if !outcome.Commit? then (s, Aborted)
      else if member.None? then (s, InvalidMember)
      else if row.None? then (s, NoTransaction)
      else RfidOn(s, row.value, member.value, exit, gateOut)
    case Arm(gate, barcode, row, override, types, clock, gateOut, outcome) =>
      if !Answers(s.txs, Key(Some(barcode), None, None), row) then (s, NotEnabled)
      else if outcome.AbortEarly? then (s, Aborted)
      else if row.None? then (s, NoTransaction)
      else ArmOn(s, row.value, gate, override, types, clock, gateOut, outcome)
    case ReadPending(report) =>
      if report.gate !in s.pending then (s, NoPending)
      else (s.(callbacks := s.callbacks + [Callback(report, s.pending[report.gate])]), Waiting)
    case Settle(at, exit, outcome) =>
      if at >= |s.callbacks| then (s, NotEnabled)
      else
        var c := s.callbacks[at];
        SettleOn(s.(callbacks := s.callbacks[..at] + s.callbacks[at + 1..]), c.report, c.pending,
                 exit, outcome)
    case Expire(gate) => (s.(pending := s.pending - {gate}), Waiting)
  }

  ghost function Exec(s: Store, ops: seq<Op>): Store {
    if ops == [] then s
    else Apply(Exec(s, ops[..|ops| - 1]), ops[|ops| - 1]).0
  }

  // ---------------------------------------------------------------- the invariant

  /** What a row shows, according to how it was completed. */
  predicate RowSound(tx: Tx, i: nat, rows: seq<EmRow>) {
    match tx.status
    case Active => tx.fee.None? && tx.paid.None? && tx.exit.None? && tx.emoney.None?
    case Completed =>
      tx.exit.Some? &&
      match tx.payMethod
      case Cash => tx.fee.Some? && tx.paid.Some? && tx.paid.value >= tx.fee.value && tx.emoney.None?
      case RfidMember => tx.fee == Some(0) && tx.paid.None? && tx.emoney.None?
      case Emoney =>
        && tx.emoney.Some? && tx.emoney.value < |rows|
        && var row := rows[tx.emoney.value];
        row.status.Charged() && row.parking == i
        && tx.fee == Some(row.amount as int) && tx.paid == tx.fee
      case PendingMethod => false
  }

  /** A charged row has completed exactly its own transaction. */
  predicate ChargeSound(row: EmRow, e: nat, txs: seq<Tx>) {
    && row.parking < |txs|
    && (row.status.Charged() ==>
          var tx := txs[row.parking];
          tx.status.Completed? && tx.payMethod.Emoney? && tx.emoney == Some(e))
  }

  function Deducted(rows: seq<EmRow>): int {
    if rows == [] then 0
    else
      var row := rows[|rows| - 1];
      Deducted(rows[..|rows| - 1]) + if row.status.Charged() then row.amount else 0
  }

  function EmoneyFee(tx: Tx): int {
    if tx.status.Completed? && tx.payMethod.Emoney? && tx.fee.Some? then tx.fee.value else 0
  }

  function EmoneyFees(txs: seq<Tx>): int {
    if txs == [] then 0 else EmoneyFees(txs[..|txs| - 1]) + EmoneyFee(txs[|txs| - 1])
  }

  ghost predicate RowsSound(s: Store) {
    && (forall i :: 0 <= i < |s.txs| ==> RowSound(s.txs[i], i, s.rows))
    && (forall e :: 0 <= e < |s.rows| ==> ChargeSound(s.rows[e], e, s.txs))
  }

  /** The partial unique indexes. */
  ghost predicate UniqueActive(txs: seq<Tx>) {
    forall i, j :: 0 <= i < j < |txs| ==> !Clash(txs[i], txs[j])
  }

  predicate Clash(a: Tx, b: Tx) {
    && a.status.Active? && b.status.Active?
    && ((a.card.Some? && a.card == b.card) || (a.barcode.Some? && a.barcode == b.barcode))
  }

  /** The completion log names each completed transaction once. */
  ghost predicate LogSound(s: Store) {
    && (forall k :: 0 <= k < |s.completions| ==>
          s.completions[k] < |s.txs| && s.txs[s.completions[k]].status.Completed?)
    && (forall k, m :: 0 <= k < m < |s.completions| ==> s.completions[k] != s.completions[m])
    && (forall i :: 0 <= i < |s.txs| && s.txs[i].status.Completed? ==> i in s.completions)
  }

  ghost predicate Sound(s: Store) {
    RowsSound(s) && UniqueActive(s.txs) && LogSound(s) && Deducted(s.rows) == EmoneyFees(s.txs)
  }

  // ---------------------------------------------------------------- preservation

  lemma {:induction false} EmoneyFeesUpdate(txs: seq<Tx>, i: nat, tx: Tx)
    requires i < |txs|
    ensures EmoneyFees(txs[i := tx]) == EmoneyFees(txs) - EmoneyFee(txs[i]) + EmoneyFee(tx)
    decreases |txs|
  {
    var n := |txs| - 1;
    if i == n {
      assert txs[i := tx][..n] == txs[..n];
    } else {
      assert txs[i := tx][..n] == txs[..n][i := tx];
      EmoneyFeesUpdate(txs[..n], i, tx);
    }
  }

  lemma DeductedAppend(rows: seq<EmRow>, row: EmRow)
    ensures Deducted(rows + [row]) == Deducted(rows) + if row.status.Charged() then row.amount else 0
  {
    assert (rows + [row])[..|rows|] == rows;
  }

  lemma UniqueUpdate(txs: seq<Tx>, i: nat, tx: Tx)
    requires UniqueActive(txs) && i < |txs| && txs[i].status.Active? && tx.barcode == txs[i].barcode
    requires tx.status.Active? ==> tx.card == txs[i].card || !CardTaken(txs, i, tx.card)
    ensures UniqueActive(txs[i := tx])
  {
  }

  /** An active row is rewritten and stays active. */
  lemma RewriteKeepsSound(s: Store, i: nat, tx: Tx)
    requires Sound(s) && i < |s.txs| && s.txs[i].status.Active?
    requires tx.status.Active? && RowSound(tx, i, s.rows) && tx.barcode == s.txs[i].barcode
    requires tx.card == s.txs[i].card || !CardTaken(s.txs, i, tx.card)
    ensures Sound(s.(txs := s.txs[i := tx]))
  {
    UniqueUpdate(s.txs, i, tx);
    EmoneyFeesUpdate(s.txs, i, tx);
  }

  lemma LogExtended(s: Store, i: nat, tx: Tx)
    requires LogSound(s) && i < |s.txs| && s.txs[i].status.Active? && tx.status.Completed?
    ensures LogSound(Finish(s, i, tx))
  {
    var s' := Finish(s, i, tx);
    forall j | 0 <= j < |s'.txs| && s'.txs[j].status.Completed? ensures j in s'.completions {
      if j == i { assert s'.completions[|s.completions|] == i; }
      else {
        var k :| 0 <= k < |s.completions| && s.completions[k] == j;
        assert s'.completions[k] == j;
      }
    }
  }

  /** An active row is completed without e-money. */
  lemma CompletionKeepsSound(s: Store, i: nat, tx: Tx)
    requires Sound(s) && i < |s.txs| && s.txs[i].status.Active?
    requires tx.status.Completed? && !tx.payMethod.Emoney? && RowSound(tx, i, s.rows)
    requires tx.barcode == s.txs[i].barcode
    ensures Sound(Finish(s, i, tx))
  {
    UniqueUpdate(s.txs, i, tx);
    EmoneyFeesUpdate(s.txs, i, tx);
    LogExtended(s, i, tx);
  }

  /** An e-money row is inserted; if it is charged, it completes its transaction. */
  lemma InsertKeepsRows(s: Store, i: nat, tx: Tx, row: EmRow)
    requires RowsSound(s) && i < |s.txs| && s.txs[i].status.Active? && row.parking == i
    requires RowSound(tx, i, s.rows + [row])
    requires if row.status.Charged() then tx.status.Completed? && tx.payMethod.Emoney?
                                          && tx.emoney == Some(|s.rows|)
             else tx.status.Active?
    ensures RowsSound(s.(txs := s.txs[i := tx], rows := s.rows + [row]))
  {
    var txs, rows := s.txs[i := tx], s.rows + [row];
    forall j | 0 <= j < |txs| ensures RowSound(txs[j], j, rows) {
      if j != i { assert RowSound(s.txs[j], j, s.rows); }
    }
    forall e | 0 <= e < |rows| ensures ChargeSound(rows[e], e, txs) {
      if e < |s.rows| { assert ChargeSound(s.rows[e], e, s.txs); }
    }
  }

  lemma ChargeKeepsSound(s: Store, i: nat, tx: Tx, row: EmRow)
    requires Sound(s) && i < |s.txs| && s.txs[i].status.Active? && row.parking == i
    requires row.status.Charged() && RowSound(tx, i, s.rows + [row])
    requires tx.status.Completed? && tx.payMethod.Emoney? && tx.emoney == Some(|s.rows|)
    requires tx.barcode == s.txs[i].barcode
    ensures Sound(Finish(s.(rows := s.rows + [row]), i, tx))
  {
    InsertKeepsRows(s, i, tx, row);
    UniqueUpdate(s.txs, i, tx);
    EmoneyFeesUpdate(s.txs, i, tx);
    DeductedAppend(s.rows, row);
    LogExtended(s.(rows := s.rows + [row]), i, tx);
  }

  lemma FailedChargeKeepsSound(s: Store, i: nat, tx: Tx, row: EmRow)
    requires Sound(s) && i < |s.txs| && s.txs[i].status.Active? && row.parking == i
    requires !row.status.Charged() && tx.status.Active? && RowSound(tx, i, s.rows + [row])
    requires tx.barcode == s.txs[i].barcode
    requires tx.card == s.txs[i].card || !CardTaken(s.txs, i, tx.card)
    ensures Sound(s.(txs := s.txs[i := tx], rows := s.rows + [row]))
  {
    InsertKeepsRows(s, i, tx, row);
    UniqueUpdate(s.txs, i, tx);
    EmoneyFeesUpdate(s.txs, i, tx);
    DeductedAppend(s.rows, row);
  }

  lemma EnterKeepsSound(s: Store, tx: Tx)
    requires Sound(s) && tx.status.Active? && RowSound(tx, |s.txs|, s.rows)
    ensures Sound(EnterTx(s, tx).0)
  {
    assert (s.txs + [tx])[..|s.txs|] == s.txs;
  }

  lemma SettleKeepsSound(s: Store, report: Report, pending: Pending, exit: int, outcome: Outcome)
    requires Sound(s)
    ensures Sound(SettleOn(s, report, pending, exit, outcome).0)
  {
    var i := pending.tx;
    if outcome.Commit? && i < |s.txs| && s.txs[i].status.Active?
       && !(report.card != "" && CardTaken(s.txs, i, Some(report.card))) {
      if report.status.Charged() {
        ChargedKeepsSound(s, report, pending, exit);
      } else {
        UnchargedKeepsSound(s, report, pending, exit);
      }
    }
  }

  /** The charged branch of the locked section, when its transaction commits. */
  lemma ChargedIs(s: Store, report: Report, pending: Pending, exit: int)
    requires pending.tx < |s.txs| && s.txs[pending.tx].status.Active?
    requires report.status.Charged() && !(report.card != "" && CardTaken(s.txs, pending.tx, Some(report.card)))
    ensures SettleOn(s, report, pending, exit, Commit).0
         == Finish(s.(rows := s.rows + [EmRow(pending.tx, report.card, report.amount, report.status)]),
                   pending.tx, ChargedTx(s, report, pending, exit)).(pending := s.pending - {report.gate})
  {
  }

  function ChargedTx(s: Store, report: Report, pending: Pending, exit: int): Tx
    requires pending.tx < |s.txs|
  {
    Complete(WithCard(s.txs[pending.tx], report.card),
             if pending.gateOut != 0 then pending.gateOut else report.gateOut, Emoney, report.amount,
             Some(report.amount), None, Some(|s.rows|), exit)
  }

  lemma ChargedKeepsSound(s: Store, report: Report, pending: Pending, exit: int)
    requires Sound(s) && pending.tx < |s.txs| && s.txs[pending.tx].status.Active?
    requires report.status.Charged() && !(report.card != "" && CardTaken(s.txs, pending.tx, Some(report.card)))
    ensures Sound(SettleOn(s, report, pending, exit, Commit).0)
  {
    var row := EmRow(pending.tx, report.card, report.amount, report.status);
    var done := ChargedTx(s, report, pending, exit);
    assert (s.rows + [row])[|s.rows|] == row;
    ChargeKeepsSound(s, pending.tx, done, row);
    var s' := Finish(s.(rows := s.rows + [row]), pending.tx, done);
    AsideKeepsSound(s', s.pending - {report.gate}, s'.callbacks);
    ChargedIs(s, report, pending, exit);
  }

  lemma UnchargedKeepsSound(s: Store, report: Report, pending: Pending, exit: int)
    requires Sound(s) && pending.tx < |s.txs| && s.txs[pending.tx].status.Active?
    requires !report.status.Charged() && !(report.card != "" && CardTaken(s.txs, pending.tx, Some(report.card)))
    ensures Sound(SettleOn(s, report, pending, exit, Commit).0)
  {
    var i := pending.tx;
    var tx := WithCard(s.txs[i], report.card);
    var row := EmRow(i, report.card, report.amount, report.status);
    assert RowSound(s.txs[i], i, s.rows);
    FailedChargeKeepsSound(s, i, tx, row);
    var s' := SettleOn(s, report, pending, exit, Commit).0;
    assert s' == s.(txs := s.txs[i := tx], rows := s.rows + [row], pending := s'.pending);
  }

  lemma CashKeepsSound(s: Store, i: nat, paid: int, override: Option<int>, types: VehicleTypes,
                       clock: int, exit: int, gateOut: int)
    requires Sound(s) && i < |s.txs| && s.txs[i].status.Active?
    ensures Sound(CashOn(s, i, paid, override, types, clock, exit, gateOut).0)
  {
    var tx := Overridden(s.txs[i], override);
    var fee := FeeAt(types, tx, clock);
    assert RowSound(s.txs[i], i, s.rows);
    if paid < fee {
      RewriteKeepsSound(s, i, tx);
    } else {
      CompletionKeepsSound(s, i, Complete(tx, gateOut, Cash, fee, Some(paid), None, None, exit));
    }
  }

  lemma ArmKeepsSound(s: Store, i: nat, gate: string, override: Option<int>, types: VehicleTypes,
                      clock: int, gateOut: int, outcome: Outcome)
    requires Sound(s) && i < |s.txs| && s.txs[i].status.Active?
    ensures Sound(ArmOn(s, i, gate, override, types, clock, gateOut, outcome).0)
  {
    var tx := Overridden(s.txs[i], override);
    assert RowSound(s.txs[i], i, s.rows);
    RewriteKeepsSound(s, i, tx);
    var s' := ArmOn(s, i, gate, override, types, clock, gateOut, outcome).0;
    assert s' == s.(pending := s'.pending) || s' == s.(txs := s.txs[i := tx], pending := s'.pending);
  }

  lemma PayKeepsSound(s: Store, op: Op)
    requires Sound(s) && (op.PayCash? || op.PayRfid? || op.Arm?)
    ensures Sound(Apply(s, op).0)
  {
    match op
    case PayCash(key, row, paid, override, types, clock, exit, gateOut, outcome) =>
      if Answers(s.txs, key, row) && row.Some? {
        CashKeepsSound(s, row.value, paid, override, types, clock, exit, gateOut);
      }
    case PayRfid(card, row, member, exit, gateOut, outcome) =>
      if Answers(s.txs, Key(None, Some(card), None), row) && row.Some? && member.Some? {
        RfidKeepsSound(s, row.value, member.value, exit, gateOut);
      }
    case Arm(gate, barcode, row, override, types, clock, gateOut, outcome) =>
      if Answers(s.txs, Key(Some(barcode), None, None), row) && row.Some? {
        ArmKeepsSound(s, row.value, gate, override, types, clock, gateOut, outcome);
      }
  }

  lemma RfidKeepsSound(s: Store, i: nat, member: nat, exit: int, gateOut: int)
    requires Sound(s) && i < |s.txs| && s.txs[i].status.Active?
    ensures Sound(RfidOn(s, i, member, exit, gateOut).0)
  {
    CompletionKeepsSound(s, i, Complete(s.txs[i], gateOut, RfidMember, 0, None, Some(member), None, exit));
  }

  /** The pending map and the callbacks are no part of the accounts. */
  lemma AsideKeepsSound(s: Store, pending: map<string, Pending>, callbacks: seq<Callback>)
    requires Sound(s)
    ensures Sound(s.(pending := pending, callbacks := callbacks))
  {
  }

  lemma AsideOnly(s: Store, op: Op)
    requires op.ReadPending? || op.Expire?
    ensures var s' := Apply(s, op).0; s' == s.(pending := s'.pending, callbacks := s'.callbacks)
  {
  }

  lemma CallbackKeepsSound(s: Store, at: nat, exit: int, outcome: Outcome)
    requires Sound(s)
    ensures Sound(Apply(s, Settle(at, exit, outcome)).0)
  {
    if at < |s.callbacks| {
      var (c, rest) := (s.callbacks[at], s.callbacks[..at] + s.callbacks[at + 1..]);
      AsideKeepsSound(s, s.pending, rest);
      SettleKeepsSound(s.(callbacks := rest), c.report, c.pending, exit, outcome);
    }
  }

  lemma OpKeepsSound(s: Store, op: Op)
    requires Sound(s)
    ensures Sound(Apply(s, op).0)
  {
    match op
    case Enter(barcode, card, plate, vehicleType, entry, lost, payMethod, member) =>
      EnterKeepsSound(s, Tx(barcode, card, plate, vehicleType, entry, lost, Active, payMethod,
                            None, None, None, member, None, None));
    case Settle(at, exit, outcome) => CallbackKeepsSound(s, at, exit, outcome);
    case ReadPending(_) =>
      AsideOnly(s, op);
      AsideKeepsSound(s, Apply(s, op).0.pending, Apply(s, op).0.callbacks);
    case Expire(_) =>
      AsideOnly(s, op);
      AsideKeepsSound(s, Apply(s, op).0.pending, Apply(s, op).0.callbacks);
    case _ => PayKeepsSound(s, op);
  }

  lemma {:induction false} RunKeepsSound(ops: seq<Op>)
    ensures Sound(Exec(EMPTY, ops))
    decreases |ops|
  {
    if ops == [] {
    } else {
      RunKeepsSound(ops[..|ops| - 1]);
      OpKeepsSound(Exec(EMPTY, ops[..|ops| - 1]), ops[|ops| - 1]);
    }
  }

  // ---------------------------------------------------------------- completed rows are final

  /** Rows are only added, e-money rows never change, and a completed transaction never does. */
  ghost predicate Extends(s: Store, s': Store) {
    && |s.txs| <= |s'.txs|
    && (forall i :: 0 <= i < |s.txs| && s.txs[i].status.Completed? ==> s'.txs[i] == s.txs[i])
    && s.rows <= s'.rows && s.completions <= s'.completions
  }

  lemma OpExtends(s: Store, op: Op)
    ensures Extends(s, Apply(s, op).0)
  {
    match op
    case Settle(at, exit, outcome) =>
      if at < |s.callbacks| {
        var c := s.callbacks[at];
        SettleExtends(s.(callbacks := s.callbacks[..at] + s.callbacks[at + 1..]), c.report,
                      c.pending, exit, outcome);
      }
    case PayCash(_, _, _, _, _, _, _, _, _) => PayExtends(s, op);
    case PayRfid(_, _, _, _, _, _) => PayExtends(s, op);
    case Arm(_, _, _, _, _, _, _, _) => PayExtends(s, op);
    case _ =>
  }

  lemma PayExtends(s: Store, op: Op)
    requires op.PayCash? || op.PayRfid? || op.Arm?
    ensures Extends(s, Apply(s, op).0)
  {
    match op
    case PayCash(key, row, paid, override, types, clock, exit, gateOut, outcome) =>
      if Answers(s.txs, key, row) && row.Some? {
        CashExtends(s, row.value, paid, override, types, clock, exit, gateOut);
      }
    case PayRfid(_, _, _, _, _, _) =>
    case Arm(_, _, _, _, _, _, _, _) =>
  }

  lemma CashExtends(s: Store, i: nat, paid: int, override: Option<int>, types: VehicleTypes,
                    clock: int, exit: int, gateOut: int)
    requires i < |s.txs| && s.txs[i].status.Active?
    ensures Extends(s, CashOn(s, i, paid, override, types, clock, exit, gateOut).0)
  {
  }

  lemma SettleExtends(s: Store, report: Report, pending: Pending, exit: int, outcome: Outcome)
    ensures Extends(s, SettleOn(s, report, pending, exit, outcome).0)
  {
  }

  lemma {:induction false} RunExtends(s: Store, ops: seq<Op>)
    ensures Extends(s, Exec(s, ops))
    decreases |ops|
  {
    if ops == [] {
    } else {
      RunExtends(s, ops[..|ops| - 1]);
      OpExtends(Exec(s, ops[..|ops| - 1]), ops[|ops| - 1]);
    }
  }
}
