/** The household load (`HouseManager`): each hour it draws a demand shaped
    by a 24-hour profile, takes it from the battery first and from the
    market for the rest, and keeps monthly totals and a short usage
    history. */
module House {
  import opened Numeric
  import opened Battery
  import opened Buffer

  /** The household's base demand in kWh per hour. */
  const BaseRate: real := 0.4
  /** Multipliers of the base rate for the hours 0 to 23. */
  const HourlyProfile: seq<real> := [
    0.4, 0.4, 0.35, 0.35, 0.4, 0.5,
    0.7, 1.0, 1.1, 1.0, 0.9, 0.9,
    1.0, 1.1, 1.0, 1.1, 1.3, 1.6,
    2.3, 2.5, 2.4, 1.8, 1.2, 0.7]
  /** Multiplier used for an hour that has no profile entry. */
  const FallbackMultiplier: real := 0.5
  const UsageHistoryCap: nat := 50
  /** The band the multiplicative noise is drawn from: 0.9 up to, not including, 1.1. */
  const NoiseLow: real := 0.9
  const NoiseHigh: real := 1.1
  /** Bounds of the hourly usage over every hour and every noise in the band. */
  const MinUsage: real := BaseRate * 0.35 * NoiseLow
  const MaxUsage: real := BaseRate * 2.5 * NoiseHigh
  /** Month recorded before the first hour is consumed; no real month. */
  const NoMonth: int := -1

  /** One entry of the usage history. */
  datatype Usage = Usage(usage: real, hour: int)

  /** A snapshot of the house's fields. */
  datatype Meter = Meter(
    usageHistory: seq<Usage>,
    monthlyEnergy: real,
    monthlyCost: real,
    currentMonth: int)

  /** What one hour of consumption leaves: the house, the battery, and the
      energy bought from the market (the value `consume` returns). */
  datatype Consumption = Consumption(meter: Meter, cell: Cell, marketEnergy: real)

  /** The house as constructed. */
  function InitialMeter(): (m: Meter)
    ensures m.usageHistory == [] && m.monthlyEnergy == 0.0 && m.monthlyCost == 0.0
    ensures m.currentMonth < 0
  {
    Meter([], 0.0, 0.0, NoMonth)
  }

  predicate InNoiseBand(noise: real) {
    NoiseLow <= noise < NoiseHigh
  }

  /** The profile multiplier of an hour; hours outside 0..23 use the fallback. */
  function Multiplier(hour: int): (k: real)
    ensures 0.35 <= k <= 2.5
    ensures 0 <= hour < 24 ==> k == HourlyProfile[hour]
    ensures !(0 <= hour < 24) ==> k == FallbackMultiplier
  {
    if 0 <= hour < |HourlyProfile| then HourlyProfile[hour] else FallbackMultiplier
  }

  /** The demand of one hour, for a noise factor drawn from the band. */
  function HourlyUsage(hour: int, noise: real): (u: real)
    ensures InNoiseBand(noise) ==> 0.0 < MinUsage <= u < MaxUsage
    ensures 0.0 < noise ==> 0.0 < u
  {
    var k := Multiplier(hour);
    UsageBounds(k, noise);
    BaseRate * (k * noise)
  }

  lemma UsageBounds(k: real, noise: real)
    requires 0.35 <= k <= 2.5
    ensures InNoiseBand(noise) ==> MinUsage <= BaseRate * (k * noise) < MaxUsage
  {
    if InNoiseBand(noise) {
      assert 0.35 * noise <= k * noise <= 2.5 * noise;
    }
  }

  /** The energy the battery supplies: as much of the demand as it holds. */
  function BatteryDraw(c: Cell, usage: real): (draw: real)
    ensures c.chargeAmount > 0.0 ==> draw == Min(usage, c.chargeAmount)
    ensures c.chargeAmount <= 0.0 ==> draw == 0.0
    ensures 0.0 <= usage ==> 0.0 <= draw <= usage
    ensures 0.0 <= c.chargeAmount ==> draw <= c.chargeAmount
  {
    if c.chargeAmount > 0.0 then Min(usage, c.chargeAmount) else 0.0
  }

  /** Starts a new month's totals when the month differs from the recorded one. */
  function ForMonth(m: Meter, month: int): (r: Meter)
    ensures r.currentMonth == month
    ensures m.currentMonth != month ==> r.monthlyEnergy == 0.0 && r.monthlyCost == 0.0
    ensures m.currentMonth == month ==> r == m
    ensures r.usageHistory == m.usageHistory
  {
    if m.currentMonth != month then m.(currentMonth := month, monthlyEnergy := 0.0, monthlyCost := 0.0)
    else m
  }

  /** The energy bought from the market: whatever the battery could not supply. */
  function MarketEnergy(c: Cell, usage: real): real {
    var needed := usage - BatteryDraw(c, usage);
    if needed > 0.0 then needed else 0.0
  }

  /** The cost of one hour: the stored part at the battery's average price,
      the rest at the market price. */
  function HourCost(c: Cell, usage: real, marketPrice: real): real {
    BatteryDraw(c, usage) * AveragePrice(c) + MarketEnergy(c, usage) * marketPrice
  }

  /** The battery after the hour's draw. */
  function Drawn(c: Cell, usage: real): Cell {
    if c.chargeAmount > 0.0 then Discharged(c, BatteryDraw(c, usage)).cell else c
  }

  /** The house after recording an hour of `usage` costing `cost`. */
  function Recorded(m: Meter, usage: real, hour: int, cost: real): Meter {
    m.(monthlyEnergy := m.monthlyEnergy + usage,
       monthlyCost := m.monthlyCost + cost,
       usageHistory := PushCapped(m.usageHistory, Usage(usage, hour), UsageHistoryCap))
  }

  /** `consume(battery, marketPrice, time)` on snapshots. */
  function Consumed(m: Meter, c: Cell, marketPrice: real, hour: int, month: int, noise: real): Consumption
  {
    var usage := HourlyUsage(hour, noise);
    Consumption(
      Recorded(ForMonth(m, month), usage, hour, HourCost(c, usage, marketPrice)),
      Drawn(c, usage),
      MarketEnergy(c, usage))
  }

  /** Cost of the month's energy per kWh, 0 before any energy is used (`getMonthlyAverageCost`). */
  function MonthlyAverageCost(m: Meter): (p: real)
    ensures m.monthlyEnergy > 0.0 ==> p * m.monthlyEnergy == m.monthlyCost
    ensures m.monthlyEnergy <= 0.0 ==> p == 0.0
    ensures m.monthlyEnergy > 0.0 && m.monthlyCost >= 0.0 ==> p >= 0.0
  {
    if m.monthlyEnergy > 0.0 then m.monthlyCost / m.monthlyEnergy else 0.0
  }

  predicate Sound(m: Meter) {
    && |m.usageHistory| <= UsageHistoryCap
    && 0.0 <= m.monthlyEnergy
    && 0.0 <= m.monthlyCost
  }

  // ---------------------------------------------------------------------
  // Properties of one hour's consumption

  /** Demand is met in full, storage first: the battery gives what it can
      (and its discharge never fails), the market supplies exactly the rest,
      and the market is used only once the battery is empty. */
  lemma ConsumeMeetsDemand(c: Cell, usage: real)
    requires Consistent(c) && 0.0 < usage
    ensures var draw := BatteryDraw(c, usage);
      && 0.0 <= draw <= c.chargeAmount
      && 0.0 <= MarketEnergy(c, usage)
      && draw + MarketEnergy(c, usage) == usage
      && (c.chargeAmount > 0.0 ==> Discharged(c, draw).ok)
      && Drawn(c, usage).chargeAmount == c.chargeAmount - draw
      && (MarketEnergy(c, usage) > 0.0 ==> Drawn(c, usage).chargeAmount == 0.0)
  {
  }

  /** The hour is billed at the battery's average price read before the
      discharge for the stored part and at the market price for the rest,
      and the stored part is billed at exactly the cost basis the battery
      gives up. */
  lemma ConsumeCostsAtPriorAverage(c: Cell, usage: real, marketPrice: real)
    requires Consistent(c) && 0.0 < usage
    ensures HourCost(c, usage, marketPrice)
         == (c.totalCost - Drawn(c, usage).totalCost) + MarketEnergy(c, usage) * marketPrice
  {
    var draw := BatteryDraw(c, usage);
    if c.chargeAmount > 0.0 {
      if draw < c.chargeAmount {
        DischargeKeepsAveragePrice(c, draw);
      } else {
        assert draw * AveragePrice(c) == c.totalCost;
      }
    }
  }

  /** One call of `consume`: the monthly totals restart exactly when the
      month has changed and otherwise accumulate (energy by the hour's usage,
      cost by the hour's cost); the usage history gains this hour as its
      newest entry; the battery loses the hour's draw; the market supplies
      the rest. */
  lemma ConsumeAccumulates(m: Meter, c: Cell, marketPrice: real, hour: int, month: int, noise: real)
    ensures var r := Consumed(m, c, marketPrice, hour, month, noise);
      var usage := HourlyUsage(hour, noise);
      && r.meter.currentMonth == month
      && r.meter.monthlyEnergy == (if m.currentMonth != month then 0.0 else m.monthlyEnergy) + usage
      && r.meter.monthlyCost == (if m.currentMonth != month then 0.0 else m.monthlyCost) + HourCost(c, usage, marketPrice)
      && r.meter.usageHistory == PushCapped(m.usageHistory, Usage(usage, hour), UsageHistoryCap)
      && r.meter.usageHistory[|r.meter.usageHistory| - 1] == Usage(usage, hour)
      && r.cell == Drawn(c, usage)
      && r.marketEnergy == MarketEnergy(c, usage)
  {
  }

  /** Consumption keeps the house's totals nonnegative and its history
      within 50 entries, and keeps the battery consistent, as long as the
      market price is nonnegative. */
  lemma ConsumeKeepsSound(m: Meter, c: Cell, marketPrice: real, hour: int, month: int, noise: real)
    requires Sound(m) && Consistent(c) && InNoiseBand(noise) && 0.0 <= marketPrice
    ensures var r := Consumed(m, c, marketPrice, hour, month, noise);
      Sound(r.meter) && Consistent(r.cell)
  {
    var usage := HourlyUsage(hour, noise);
    var draw := BatteryDraw(c, usage);
    ConsumeMeetsDemand(c, usage);
    if c.chargeAmount > 0.0 {
      DischargeKeepsConsistent(c, draw);
    }
    assert 0.0 <= draw * AveragePrice(c);
    assert 0.0 <= MarketEnergy(c, usage) * marketPrice;
    assert 0.0 <= HourCost(c, usage, marketPrice);
  }

  /** The house object. The usage history holds this hour's record at its end. */
  class HouseManager {
    var usageHistory: seq<Usage>
    var monthlyEnergy: real
    var monthlyCost: real
    var currentMonth: int

    function State(): Meter
      reads this
    {
      Meter(usageHistory, monthlyEnergy, monthlyCost, currentMonth)
    }

    constructor ()
      ensures State() == InitialMeter()
    {
      usageHistory := [];
      monthlyEnergy := 0.0;
      monthlyCost := 0.0;
      currentMonth := NoMonth;
    }

    /** One hour of demand at the clock's `hour` and `month`; `noise` stands
        for the random factor the source draws. Returns the energy bought
        from the market. */
    method Consume(battery: BatteryManager, marketPrice: real, hour: int, month: int, noise: real)
      returns (marketEnergyUsed: real)
      modifies this, battery
      ensures var r := Consumed(old(State()), old(battery.State()), marketPrice, hour, month, noise);
        State() == r.meter && battery.State() == r.cell && marketEnergyUsed == r.marketEnergy
    {
      ghost var c := battery.State();
      if currentMonth != month {
        currentMonth := month;
        monthlyEnergy := 0.0;
        monthlyCost := 0.0;
      }
      assert State() == ForMonth(old(State()), month);

      var hourlyUsage := HourlyUsage(hour, noise);
      var energyFromBattery, actualCost := DrawFromBattery(battery, hourlyUsage);
      var energyNeeded := hourlyUsage - energyFromBattery;
      var marketCost;
      marketEnergyUsed, marketCost := BuyFromMarket(energyNeeded, marketPrice);
      actualCost := actualCost + marketCost;
      assert marketEnergyUsed == MarketEnergy(c, hourlyUsage);
      assert actualCost == HourCost(c, hourlyUsage, marketPrice);
      Record(hourlyUsage, hour, actualCost);
    }

    /** The market leg of `consume`: whatever the battery did not cover is
        bought at the market price. */
    method BuyFromMarket(energyNeeded: real, marketPrice: real)
      returns (marketEnergyUsed: real, marketCost: real)
      ensures marketEnergyUsed == if energyNeeded > 0.0 then energyNeeded else 0.0
      ensures marketCost == marketEnergyUsed * marketPrice
    {
      marketEnergyUsed := 0.0;
      marketCost := 0.0;
      if energyNeeded > 0.0 {
        marketEnergyUsed := energyNeeded;
        marketCost := marketEnergyUsed * marketPrice;
      }
    }

    /** The bookkeeping tail of `consume`: add the hour to the monthly
        totals and push its record into the capped usage history. */
    method Record(hourlyUsage: real, hour: int, actualCost: real)
      modifies this
      ensures State() == Recorded(old(State()), hourlyUsage, hour, actualCost)
    {
      monthlyEnergy := monthlyEnergy + hourlyUsage;
      monthlyCost := monthlyCost + actualCost;

      usageHistory := usageHistory + [Usage(hourlyUsage, hour)];
      if |usageHistory| > UsageHistoryCap {
        usageHistory := usageHistory[1..];
      }
    }

    /** The battery leg of `consume`: when the battery holds any charge,
        draw as much of `energyNeeded` as it holds, costed at the average
        price read before the discharge. */
    method DrawFromBattery(battery: BatteryManager, energyNeeded: real)
      returns (energyFromBattery: real, actualCost: real)
      modifies battery
      ensures var c := old(battery.State());
        && battery.State() == Drawn(c, energyNeeded)
        && energyFromBattery == BatteryDraw(c, energyNeeded)
        && actualCost == BatteryDraw(c, energyNeeded) * AveragePrice(c)
    {
      energyFromBattery := 0.0;
      actualCost := 0.0;
      if battery.chargeAmount > 0.0 {
        energyFromBattery := Min(energyNeeded, battery.chargeAmount);
        var batteryAvgPrice := battery.GetAveragePrice();
        var discharged := battery.Discharge(energyFromBattery);
        actualCost := actualCost + energyFromBattery * batteryAvgPrice;
      }
    }

    function GetMonthlyAverageCost(): (p: real)
      reads this
      ensures monthlyEnergy > 0.0 ==> p * monthlyEnergy == monthlyCost
      ensures monthlyEnergy <= 0.0 ==> p == 0.0
    {
      MonthlyAverageCost(State())
    }
  }
}
