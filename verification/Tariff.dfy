/** The tariff engine and the fee of a parking transaction. Times are integer microseconds
    and calendar dates are UTC dates, as the entry and exit clocks are. */
module Tariff {
  import opened Text

  const MINUTE := 60_000_000
  const HOUR := 60 * MINUTE
  const DAY := 24 * HOUR

  datatype VehicleTypeRate = VehicleTypeRate(
    hourlyRate: int, dailyCap: int, baseTariff: int, overnightMode: string, overnightTariff: int,
    lostTicketPenalty: int, isProgressive: bool)
  {
    /** Amounts as the admin screens intend them. */
    predicate NonNegative() {
      hourlyRate >= 0 && dailyCap >= 0 && baseTariff >= 0 && overnightTariff >= 0
      && lostTicketPenalty >= 0
    }
  }

  datatype TariffConfig = TariffConfig(vehicleTypes: map<string, VehicleTypeRate>,
                                       gracePeriodMinutes: nat)

  datatype FeeResult = Fee(amount: int) | ValueError

  function Min(a: int, b: int): int { if a <= b then a else b }
  function Max(a: int, b: int): int { if a >= b then a else b }

  function CeilDiv(a: nat, b: nat): nat
    requires b > 0
  {
    (a + b - 1) / b
  }

  /** Started hours, at least one. */
  function Hours(duration: nat): nat {
    Max(1, CeilDiv(duration, HOUR))
  }

  /** Started 24-hour blocks, at least one. */
  function Days(duration: nat): nat {
    Max(1, CeilDiv(duration, DAY))
  }

  function Or(a: int, b: int): int { if a != 0 then a else b }

  function PerHour(rate: VehicleTypeRate): int {
    Or(rate.hourlyRate, rate.baseTariff)
  }

  function TimeFee(rate: VehicleTypeRate, hours: nat): int {
    if rate.isProgressive then
      Or(rate.baseTariff, rate.hourlyRate) + Max(0, hours - 1) * rate.hourlyRate
    else
      hours * PerHour(rate)
  }

  function Nights(mode: string, entry: int, exit: int): nat
    requires entry <= exit
  {
    if mode == "24h" then (exit - entry) / DAY else Max(0, exit / DAY - entry / DAY)
  }

  function Overnight(rate: VehicleTypeRate, entry: int, exit: int): int
    requires entry <= exit
  {
    if rate.overnightMode != "none" && rate.overnightTariff > 0 then
      Nights(rate.overnightMode, entry, exit) * rate.overnightTariff
    else 0
  }

  function Capped(rate: VehicleTypeRate, fee: int, days: nat): int {
    if rate.dailyCap > 0 then Min(fee, days * rate.dailyCap) else fee
  }

  function Floored(rate: VehicleTypeRate, fee: int, lost: bool): int {
    if lost && rate.lostTicketPenalty > 0 then Max(fee, rate.lostTicketPenalty) else fee
  }

  predicate InGrace(duration: nat, grace: nat, lost: bool) {
    !lost && duration <= grace * MINUTE
  }

  /** The charge for a stay under one rate. */
  function Charge(rate: VehicleTypeRate, grace: nat, entry: int, exit: int, lost: bool): int
    requires entry <= exit
  {
    var duration := exit - entry;
    if InGrace(duration, grace, lost) then 0
    else
      var fee := TimeFee(rate, Hours(duration)) + Overnight(rate, entry, exit);
      Floored(rate, Capped(rate, fee, Days(duration)), lost)
  }

  function CalculateTariff(entry: int, exit: int, code: string, config: TariffConfig,
                           lost: bool): FeeResult
  {
    if exit < entry then ValueError
    else if code !in config.vehicleTypes then ValueError
    else Fee(Charge(config.vehicleTypes[code], config.gracePeriodMinutes, entry, exit, lost))
  }

  // ---------------------------------------------------------------- the fee of a transaction

  datatype VehicleType = VehicleType(code: string, rate: VehicleTypeRate)

  function FlatRate(hourly: int, cap: int): VehicleTypeRate {
    VehicleTypeRate(hourly, cap, 0, "none", 0, 0, false)
  }

  const DEFAULT_TARIFF_CONFIG := TariffConfig(
    map["MOTOR" := FlatRate(2000, 15000), "MOBIL" := FlatRate(5000, 50000),
        "BUS" := FlatRate(10000, 100000)],
    15)

  function TariffConfigFor(types: map<int, VehicleType>, id: Option<int>)
    : (TariffConfig, Option<string>)
  {
    if id.None? || id.value !in types then (DEFAULT_TARIFF_CONFIG, None)
    else
      var vt := types[id.value];
      (TariffConfig(map[vt.code := vt.rate], 15), Some(vt.code))
  }

  /** The fee a transaction with the given vehicle type owes at a clock reading; a clock
      behind the entry time is read as the entry time. */
  function TransactionFee(types: map<int, VehicleType>, id: Option<int>, entry: int, clock: int,
                          lost: bool): FeeResult
  {
    var (config, code) := TariffConfigFor(types, id);
    CalculateTariff(entry, Max(clock, entry), if code.Some? then code.value else "MOBIL",
                    config, lost)
  }

  /** The rate that ends up applying. */
  function EffectiveRate(types: map<int, VehicleType>, id: Option<int>): VehicleTypeRate {
    if id.None? || id.value !in types then FlatRate(5000, 50000) else types[id.value].rate
  }

  /** The fee of a transaction never raises: neither a missing vehicle type nor clock skew
      reaches the engine's error paths. */
  lemma TransactionFeeTotal(types: map<int, VehicleType>, id: Option<int>, entry: int, clock: int,
                            lost: bool)
    ensures TransactionFee(types, id, entry, clock, lost)
         == Fee(Charge(EffectiveRate(types, id), 15, entry, Max(clock, entry), lost))
  {
    assert DEFAULT_TARIFF_CONFIG.vehicleTypes["MOBIL"] == FlatRate(5000, 50000);
  }

  // ---------------------------------------------------------------- an hour-by-hour reference

  /** `n` units are the started ones of a stay: enough of them, and one fewer would not be. */
  predicate Started(duration: nat, unit: nat, n: nat) {
    n >= 1 && duration <= n * unit && (n > 1 ==> (n - 1) * unit < duration)
  }

  lemma HoursAndDaysAreStarted(duration: nat)
    ensures Started(duration, 3_600_000_000, Hours(duration))
    ensures Started(duration, 86_400_000_000, Days(duration))
  {
  }

  lemma StartedOnce(duration: nat, unit: nat, n: nat, m: nat)
    requires unit > 0 && Started(duration, unit, n) && Started(duration, unit, m)
    ensures n == m
  {
    if n < m {
      MulMonotone(n, m - 1, unit);
    } else if m < n {
      MulMonotone(m, n - 1, unit);
    }
  }

  /** What the k-th started hour costs: by a flat rate all the same, by a progressive one the first
      hour the base tariff. A price of zero stands for the other one. */
  function HourPrice(rate: VehicleTypeRate, k: nat): int {
    if rate.isProgressive && k > 1 then rate.hourlyRate
    else if rate.isProgressive then if rate.baseTariff == 0 then rate.hourlyRate else rate.baseTariff
    else if rate.hourlyRate == 0 then rate.baseTariff else rate.hourlyRate
  }

  function HourByHour(rate: VehicleTypeRate, hours: nat): int {
    if hours == 0 then 0 else HourByHour(rate, hours - 1) + HourPrice(rate, hours)
  }

  lemma {:induction false} TimeFeeHourByHour(rate: VehicleTypeRate, hours: nat)
    requires hours >= 1
    ensures TimeFee(rate, hours) == HourByHour(rate, hours)
  {
    if hours == 1 {
      assert HourByHour(rate, 0) == 0;
    } else {
      TimeFeeHourByHour(rate, hours - 1);
      Distribute(hours - 1, PerHour(rate));
      Distribute(hours - 2, rate.hourlyRate);
    }
  }

  /** Midnights from the start of day `d` on that are not after `exit`. */
  function MidnightsFrom(d: int, exit: int): nat
    decreases exit - d * DAY
  {
    if d * DAY > exit then 0 else 1 + MidnightsFrom(d + 1, exit)
  }

  lemma {:induction false} MidnightsClosedForm(d: int, exit: int)
    ensures MidnightsFrom(d, exit) == Max(0, exit / DAY - d + 1)
    decreases exit - d * DAY
  {
    if d * DAY > exit {
    } else {
      MidnightsClosedForm(d + 1, exit);
    }
  }

  /** Nights are the midnights passed after the entry, or in "24h" mode the completed days. */
  lemma NightsMeaning(mode: string, entry: int, exit: int)
    requires entry <= exit
    ensures mode != "24h" ==> Nights(mode, entry, exit) == MidnightsFrom(entry / DAY + 1, exit)
    ensures mode == "24h" ==>
      var n := Nights(mode, entry, exit); n * DAY <= exit - entry < (n + 1) * DAY
  {
    MidnightsClosedForm(entry / DAY + 1, exit);
  }

  /** Up to the last microsecond of the grace period a stay costs nothing, unless the ticket is
      lost. */
  lemma GraceIsFree(rate: VehicleTypeRate, grace: nat, entry: int, exit: int)
    requires entry <= exit && exit - entry <= grace * 60_000_000
    ensures Charge(rate, grace, entry, exit, false) == 0
  {
  }

  /** The surcharge for each night; none if the mode or the tariff says so. */
  function Surcharge(rate: VehicleTypeRate, entry: int, exit: int): int
    requires entry <= exit
  {
    if rate.overnightMode == "none" || rate.overnightTariff <= 0 then 0
    else if rate.overnightMode == "24h" then (exit - entry) / 86_400_000_000 * rate.overnightTariff
    else MidnightsFrom(entry / 86_400_000_000 + 1, exit) * rate.overnightTariff
  }

  /** An uncapped stay outside the grace period costs its started hours one by one, plus the
      surcharge for each night. */
  lemma UncappedCharge(rate: VehicleTypeRate, grace: nat, entry: int, exit: int, hours: nat)
    requires entry <= exit && exit - entry > grace * 60_000_000 && rate.dailyCap <= 0
    requires Started(exit - entry, 3_600_000_000, hours)
    ensures Charge(rate, grace, entry, exit, false)
         == HourByHour(rate, hours) + Surcharge(rate, entry, exit)
  {
    StartedOnce(exit - entry, HOUR, hours, Hours(exit - entry));
    TimeFeeHourByHour(rate, hours);
    NightsMeaning(rate.overnightMode, entry, exit);
  }

  /** A cap bounds the charge by as many caps as there are started days. */
  lemma CappedCharge(rate: VehicleTypeRate, grace: nat, entry: int, exit: int, days: nat)
    requires entry <= exit && exit - entry > grace * 60_000_000 && rate.dailyCap > 0
    requires Started(exit - entry, 86_400_000_000, days)
    ensures Charge(rate, grace, entry, exit, false)
         == Min(Charge(rate.(dailyCap := 0), grace, entry, exit, false), days * rate.dailyCap)
  {
    StartedOnce(exit - entry, DAY, days, Days(exit - entry));
  }

  function Floor(penalty: int, fee: int): int {
    if penalty > 0 && fee < penalty then penalty else fee
  }

  /** A lost ticket knows no grace period, and its penalty, if there is one, is the least it costs;
      a stay of no length at all counts as a started hour of a started day. */
  lemma LostCharge(rate: VehicleTypeRate, grace: nat, entry: int, exit: int)
    requires entry <= exit
    ensures entry < exit ==>
      Charge(rate, grace, entry, exit, true)
      == Floor(rate.lostTicketPenalty, Charge(rate, 0, entry, exit, false))
    ensures entry == exit ==>
      Charge(rate, grace, entry, exit, true)
      == Floor(rate.lostTicketPenalty,
               if rate.dailyCap > 0 then Min(HourPrice(rate, 1), rate.dailyCap) else HourPrice(rate, 1))
  {
  }

  // ---------------------------------------------------------------- monotonicity

  lemma MulMonotone(a: int, b: int, c: int)
    requires a <= b && c >= 0
    ensures a * c <= b * c
  {
    assert (b - a) * c >= 0;
  }

  lemma MulNonNegative(a: int, b: int)
    requires a >= 0 && b >= 0
    ensures a * b >= 0
  {
  }

  lemma TimeFeeMonotone(rate: VehicleTypeRate, h1: nat, h2: nat)
    requires rate.NonNegative() && h1 <= h2
    ensures 0 <= TimeFee(rate, h1) <= TimeFee(rate, h2)
  {
    if rate.isProgressive {
      MulMonotone(Max(0, h1 - 1), Max(0, h2 - 1), rate.hourlyRate);
      MulNonNegative(Max(0, h1 - 1), rate.hourlyRate);
    } else {
      MulMonotone(h1, h2, PerHour(rate));
      MulNonNegative(h1, PerHour(rate));
    }
  }

  lemma OvernightMonotone(rate: VehicleTypeRate, entry: int, exit1: int, exit2: int)
    requires rate.NonNegative() && entry <= exit1 <= exit2
    ensures 0 <= Overnight(rate, entry, exit1) <= Overnight(rate, entry, exit2)
  {
    var n1, n2 := Nights(rate.overnightMode, entry, exit1), Nights(rate.overnightMode, entry, exit2);
    assert n1 <= n2;
    MulMonotone(n1, n2, rate.overnightTariff);
    MulNonNegative(n1, rate.overnightTariff);
  }

  /** A longer stay never costs less. */
  lemma ChargeMonotone(rate: VehicleTypeRate, grace: nat, entry: int, exit1: int, exit2: int,
                       lost: bool)
    requires rate.NonNegative() && entry <= exit1 <= exit2
    ensures 0 <= Charge(rate, grace, entry, exit1, lost) <= Charge(rate, grace, entry, exit2, lost)
  {
    var d1, d2 := exit1 - entry, exit2 - entry;
    TimeFeeMonotone(rate, Hours(d1), Hours(d2));
    OvernightMonotone(rate, entry, exit1, exit2);
    MulMonotone(Days(d1), Days(d2), rate.dailyCap);
    MulNonNegative(Days(d1), rate.dailyCap);
  }

  /** Over all clock readings, skewed ones included, the fee is non-decreasing in the clock:
      under unchanged rates a quote never exceeds a later charge. */
  lemma QuoteNeverExceedsCharge(types: map<int, VehicleType>, id: Option<int>, entry: int,
                                quoteClock: int, payClock: int, lost: bool)
    requires EffectiveRate(types, id).NonNegative() && quoteClock <= payClock
    ensures var quote := TransactionFee(types, id, entry, quoteClock, lost);
      var charge := TransactionFee(types, id, entry, payClock, lost);
      quote.Fee? && charge.Fee? && 0 <= quote.amount <= charge.amount
  {
    TransactionFeeTotal(types, id, entry, quoteClock, lost);
    TransactionFeeTotal(types, id, entry, payClock, lost);
    ChargeMonotone(EffectiveRate(types, id), 15, entry, Max(quoteClock, entry),
                   Max(payClock, entry), lost);
  }

  /** The per-day cap bounds the fee unless the lost-ticket floor lifts it, and a lost ticket
      never costs less than the floor. */
  lemma ChargeBounds(rate: VehicleTypeRate, grace: nat, entry: int, exit: int, lost: bool)
    requires rate.NonNegative() && entry <= exit
    ensures var fee := Charge(rate, grace, entry, exit, lost);
      var ceiling := Days(exit - entry) * rate.dailyCap;
      && (lost ==> fee >= rate.lostTicketPenalty)
      && (rate.dailyCap > 0 && fee > ceiling ==> lost && fee == rate.lostTicketPenalty)
  {
    ChargeMonotone(rate, grace, entry, exit, exit, lost);
    MulNonNegative(Days(exit - entry), rate.dailyCap);
  }

  // ---------------------------------------------------------------- the cap, block by block

  function BlockFee(hours: nat, perHour: nat, cap: nat): nat {
    Min(hours * perHour, cap)
  }

  /** Reference: charge every started 24-hour block on its own and cap each block. */
  function BlockByBlock(hours: nat, perHour: nat, cap: nat): nat
    decreases hours
  {
    if hours <= 24 then BlockFee(hours, perHour, cap)
    else BlockFee(24, perHour, cap) + BlockByBlock(hours - 24, perHour, cap)
  }

  /** Hours in the last started block. */
  function LastBlock(hours: nat): nat
    requires hours >= 1
  {
    (hours - 1) % 24 + 1
  }

  lemma {:induction false} BlockClosedForm(n: nat, last: nat, perHour: nat, cap: nat)
    requires 1 <= last <= 24
    ensures BlockByBlock(24 * n + last, perHour, cap)
         == n * BlockFee(24, perHour, cap) + BlockFee(last, perHour, cap)
    decreases n
  {
    var full := BlockFee(24, perHour, cap);
    if n == 0 {
    } else {
      BlockClosedForm(n - 1, last, perHour, cap);
      assert 24 * n + last - 24 == 24 * (n - 1) + last;
      Distribute(n - 1, full);
    }
  }

  lemma Distribute(n: int, x: int)
    ensures (n + 1) * x == n * x + x
  {
  }

  /** Started days are the started blocks of the started hours. */
  lemma DaysOfHours(duration: nat)
    ensures Days(duration) == (Hours(duration) - 1) / 24 + 1
  {
    if duration > 0 {
      var h := CeilDiv(duration, HOUR);
      var d := (h - 1) / 24 + 1;
      assert (h - 1) * HOUR < duration <= h * HOUR;
      assert 24 * (d - 1) < h <= 24 * d;
      assert (d - 1) * DAY < duration <= d * DAY;
    }
  }

  /** One cap for the whole stay against one cap a block, with `n` full blocks before the last
      one; `day` is a full block's uncapped fee and `rest` the last block's. */
  lemma CapAlgebra(n: nat, day: nat, rest: nat, cap: nat)
    requires rest <= day
    ensures var fee := Min(n * day + rest, (n + 1) * cap);
      var reference := n * Min(day, cap) + Min(rest, cap);
      && reference <= fee <= reference + cap
      && (fee == reference <==> n == 0 || day <= cap || rest >= cap)
  {
    Distribute(n, cap);
    if day <= cap {
      MulMonotone(day, cap, n);
    } else {
      MulMonotone(cap + 1, day, n);
      assert n * (cap + 1) == n * cap + n;
    }
  }

  lemma HoursAgainstBlocks(hours: nat, perHour: nat, cap: nat)
    requires hours >= 1
    ensures var fee := Min(hours * perHour, ((hours - 1) / 24 + 1) * cap);
      var reference := BlockByBlock(hours, perHour, cap);
      && reference <= fee <= reference + cap
      && (fee == reference
          <==> hours <= 24 || 24 * perHour <= cap || LastBlock(hours) * perHour >= cap)
  {
    var n, last := (hours - 1) / 24, LastBlock(hours);
    var day, rest := 24 * perHour, last * perHour;
    assert hours == 24 * n + last;
    BlockClosedForm(n, last, perHour, cap);
    MulMonotone(last, 24, perHour);
    SplitHours(n, last, perHour);
    CapAlgebra(n, day, rest, cap);
  }

  lemma SplitHours(n: nat, last: nat, perHour: nat)
    ensures (24 * n + last) * perHour == n * (24 * perHour) + last * perHour
  {
  }

  /** The engine's capped fee against the block-by-block reference, for flat rates without an
      overnight surcharge. */
  lemma CapRefinesBlocks(rate: VehicleTypeRate, grace: nat, entry: int, exit: int)
    requires rate.NonNegative() && !rate.isProgressive && rate.dailyCap > 0
    requires rate.overnightMode == "none" || rate.overnightTariff == 0
    requires entry <= exit && exit - entry > grace * 60_000_000
    ensures var fee := Charge(rate, grace, entry, exit, false);
      var hours := Hours(exit - entry);
      var reference := BlockByBlock(hours, PerHour(rate), rate.dailyCap);
      && reference <= fee <= reference + rate.dailyCap
      && (fee == reference
          <==> hours <= 24 || 24 * PerHour(rate) <= rate.dailyCap
               || LastBlock(hours) * PerHour(rate) >= rate.dailyCap)
  {
    var hours, perHour, cap := Hours(exit - entry), PerHour(rate), rate.dailyCap;
    DaysOfHours(exit - entry);
    assert Charge(rate, grace, entry, exit, false)
        == Min(hours * perHour, ((hours - 1) / 24 + 1) * cap);
    HoursAgainstBlocks(hours, perHour, cap);
  }

  /** The two readings really differ: 25 hours at the default car rate cost a second full cap's
      worth of hours, where block-by-block charging would ask for one capped day and one hour. */
  lemma CapExample()
    ensures Charge(FlatRate(5000, 50000), 15, 0, 25 * HOUR, false) == 100000
    ensures BlockByBlock(25, 5000, 50000) == 55000
  {
    assert BlockByBlock(1, 5000, 50000) == 5000;
  }
}
