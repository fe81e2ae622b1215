/** The home battery (`BatteryManager`): stored energy carried at a
    weighted-average cost basis, a nameplate capacity that can be bought in
    larger, and a state of health in percent that decays linearly over a
    fixed lifespan of twelve years of hourly ticks. */
module Battery {
  import opened Numeric

  const InitialCapacity: real := 150.0
  const InitialCharge: real := 50.0
  const InitialUnitCost: real := 0.10
  /** State of health is a percentage; 100 is a new battery. */
  const FullHealth: real := 100.0
  const LifespanHours: nat := 12 * 365 * 24
  /** Price of one kWh of extra capacity. */
  const InvestmentPerKwh: real := 336.87

  /** A snapshot of the battery's fields. */
  datatype Cell = Cell(
    capacity: real,
    chargeAmount: real,
    totalCost: real,
    soh: real,
    hoursPassed: nat,
    totalInvestment: real)

  /** What `charge` and `discharge` report, with the battery they leave. */
  datatype Outcome = Outcome(ok: bool, cell: Cell)

  /** State of health after `hoursPassed` hourly ticks. */
  function SohAt(hoursPassed: nat): (soh: real)
    ensures 0.0 <= soh <= FullHealth
    ensures soh == 0.0 <==> hoursPassed >= LifespanHours
  {
    Max(0.0, FullHealth * (1.0 - hoursPassed as real / LifespanHours as real))
  }

  /** The bookkeeping invariant of a battery driven only by sensible calls:
      nothing negative, no cost carried by an empty battery, and health
      equal to what its age dictates. */
  predicate Consistent(c: Cell) {
    && 0.0 <= c.capacity
    && 0.0 <= c.chargeAmount
    && 0.0 <= c.totalCost
    && (c.chargeAmount == 0.0 ==> c.totalCost == 0.0)
    && c.soh == SohAt(c.hoursPassed)
  }

  /** The battery as constructed: 150 kWh, holding 50 kWh bought at 0.10. */
  function Initial(): (c: Cell)
    ensures Consistent(c)
    ensures AveragePrice(c) == InitialUnitCost
    ensures c.chargeAmount <= EffectiveCapacity(c)
    ensures c.totalInvestment == InvestmentCost(c)
  {
    Cell(InitialCapacity, InitialCharge, InitialCharge * InitialUnitCost,
         FullHealth, 0, InitialCapacity * InvestmentPerKwh)
  }

  /** Unit price of the energy held (`getAveragePrice`), 0 when empty. */
  function AveragePrice(c: Cell): (p: real)
    ensures c.chargeAmount == 0.0 ==> p == 0.0
    ensures c.chargeAmount != 0.0 ==> p * c.chargeAmount == c.totalCost
    ensures Consistent(c) ==> 0.0 <= p
  {
    if c.chargeAmount == 0.0 then 0.0 else c.totalCost / c.chargeAmount
  }

  /** The capacity actually available, degraded by the state of health. */
  function EffectiveCapacity(c: Cell): real {
    c.capacity * (c.soh / FullHealth)
  }

  /** What the current capacity is worth at the upgrade price
      (`getInvestmentCost`): proportional to the capacity, nonnegative for
      a nonnegative capacity. */
  function InvestmentCost(c: Cell): (v: real)
    ensures v / InvestmentPerKwh == c.capacity
    ensures 0.0 <= c.capacity ==> 0.0 <= v
  {
    c.capacity * InvestmentPerKwh
  }

  /** The battery never holds more than its nameplate capacity. */
  predicate WithinCapacity(c: Cell) {
    c.chargeAmount <= c.capacity
  }

  /** The energy held cost between `lo` and `hi` per kWh on average. */
  predicate PricedWithin(c: Cell, lo: real, hi: real) {
    lo * c.chargeAmount <= c.totalCost <= hi * c.chargeAmount
  }

  /** `charge(amount, price)`: refused when it would overfill the degraded capacity. */
  function Charged(c: Cell, amount: real, price: real): (r: Outcome)
    ensures r.ok <==> c.chargeAmount + amount <= EffectiveCapacity(c)
    ensures !r.ok ==> r.cell == c
    ensures r.ok ==> r.cell.chargeAmount <= EffectiveCapacity(r.cell)
    ensures r.ok ==> r.cell.chargeAmount == c.chargeAmount + amount
    ensures r.ok ==> r.cell.totalCost == c.totalCost + amount * price
    ensures r.cell.(chargeAmount := c.chargeAmount, totalCost := c.totalCost) == c
  {
    var effectiveCapacity := EffectiveCapacity(c);
    if c.chargeAmount + amount > effectiveCapacity then Outcome(false, c)
    else Outcome(true, c.(chargeAmount := c.chargeAmount + amount,
                          totalCost := c.totalCost + amount * price))
  }

  /** `discharge(amount)`: refused when more is asked than is stored; the
      energy taken out leaves at the average price, and a battery drained to
      zero (or below) is reset to exactly zero charge and zero cost. */
  function Discharged(c: Cell, amount: real): (r: Outcome)
    ensures r.ok <==> amount <= c.chargeAmount
    ensures !r.ok ==> r.cell == c
    ensures r.ok ==> r.cell.chargeAmount == Max(0.0, c.chargeAmount - amount)
    ensures r.ok && r.cell.chargeAmount == 0.0 ==> r.cell.totalCost == 0.0
    ensures r.ok && r.cell.chargeAmount != 0.0 ==>
              r.cell.totalCost == c.totalCost - amount * AveragePrice(c)
    ensures r.cell.(chargeAmount := c.chargeAmount, totalCost := c.totalCost) == c
  {
    if c.chargeAmount - amount < 0.0 then Outcome(false, c)
    else
      var avgPrice := AveragePrice(c);
      var left := c.chargeAmount - amount;
      var cost := c.totalCost - amount * avgPrice;
      if left <= 0.0 then Outcome(true, c.(chargeAmount := 0.0, totalCost := 0.0))
      else Outcome(true, c.(chargeAmount := left, totalCost := cost))
  }

  /** `tick()`: one more hour of age and the health that age dictates. */
  function Aged(c: Cell): (r: Cell)
    ensures r.hoursPassed == c.hoursPassed + 1
    ensures r.soh == SohAt(r.hoursPassed)
    ensures Consistent(c) ==> Consistent(r) && r.soh <= c.soh
    ensures r.(hoursPassed := c.hoursPassed, soh := c.soh) == c
  {
    c.(hoursPassed := c.hoursPassed + 1, soh := SohAt(c.hoursPassed + 1))
  }

  /** `upgradeCapacity(amount)`: more capacity, paid into the investment counter. */
  function Upgraded(c: Cell, amount: real): (r: Cell)
    ensures r.capacity == c.capacity + amount
    ensures r.totalInvestment - c.totalInvestment == InvestmentCost(r) - InvestmentCost(c)
    ensures r.(capacity := c.capacity, totalInvestment := c.totalInvestment) == c
  {
    c.(capacity := c.capacity + amount,
       totalInvestment := c.totalInvestment + amount * InvestmentPerKwh)
  }

  /** `n` consecutive ticks. */
  function AgedBy(c: Cell, n: nat): Cell
    decreases n
  {
    if n == 0 then c else Aged(AgedBy(c, n - 1))
  }

  // ---------------------------------------------------------------------
  // Properties of the battery's bookkeeping

  /** Health never rises as the battery ages. */
  lemma SohNonIncreasing(h1: nat, h2: nat)
    requires h1 <= h2
    ensures SohAt(h2) <= SohAt(h1)
  {
  }

  /** Ticking ages the battery by exactly `n` hours, never raises its
      health, reaches zero health at the end of its lifespan, and touches
      nothing else. */
  lemma {:induction false} AgingDegrades(c: Cell, n: nat)
    requires Consistent(c)
    ensures Consistent(AgedBy(c, n))
    ensures AgedBy(c, n).hoursPassed == c.hoursPassed + n
    ensures AgedBy(c, n).soh <= c.soh
    ensures c.hoursPassed + n >= LifespanHours ==> AgedBy(c, n).soh == 0.0
    ensures AgedBy(c, n).(hoursPassed := c.hoursPassed, soh := c.soh) == c
    decreases n
  {
    if n > 0 {
      AgingDegrades(c, n - 1);
    }
  }

  /** Absent upgrades, the capacity a battery can be charged to never grows
      with age, and it is gone once the lifespan is over. */
  lemma AgingShrinksCapacity(c: Cell, n: nat)
    requires Consistent(c)
    ensures EffectiveCapacity(AgedBy(c, n)) <= EffectiveCapacity(c)
    ensures c.hoursPassed + n >= LifespanHours ==> EffectiveCapacity(AgedBy(c, n)) == 0.0
  {
    AgingDegrades(c, n);
    CapacityScales(AgedBy(c, n), c);
  }

  /** Aging lowers the health but leaves the charge alone, so a battery
      charged near its limit ends up holding more than its degraded
      capacity: past two thirds of the lifespan (70,080 hours) the initial
      50 kWh exceed it, though they still fit the nameplate capacity. */
  lemma AgingOutgrowsDegradedCapacity(n: nat)
    requires 2 * LifespanHours < 3 * n
    ensures var c := AgedBy(Initial(), n);
      && Consistent(c) && c.chargeAmount == InitialCharge
      && EffectiveCapacity(c) < c.chargeAmount <= c.capacity
  {
    AgingDegrades(Initial(), n);
    var c := AgedBy(Initial(), n);
    assert c == Aged(AgedBy(Initial(), n - 1));
    LateHealth(n);
    InitialOverfullWhenWeak(c);
  }

  /** A nameplate-sized battery holding the initial charge holds more than
      its degraded capacity once less than a third of its health is left. */
  lemma InitialOverfullWhenWeak(c: Cell)
    requires c.capacity == InitialCapacity && c.chargeAmount == InitialCharge
    requires c.soh < FullHealth / 3.0
    ensures EffectiveCapacity(c) < c.chargeAmount <= c.capacity
  {
    var h := c.soh / FullHealth;
    ScaleStrict(InitialCapacity, h, 1.0 / 3.0);
    assert EffectiveCapacity(c) == InitialCapacity * h;
  }

  /** Past two thirds of the lifespan less than a third of the health is left. */
  lemma LateHealth(k: nat)
    requires 2 * LifespanHours < 3 * k
    ensures SohAt(k) < FullHealth / 3.0
  {
    var f := k as real / LifespanHours as real;
    assert 2.0 * (LifespanHours as real) < 3.0 * (k as real);
    assert f * (LifespanHours as real) == k as real;
    assert 2.0 / 3.0 < f;
  }

  /** The degraded capacity never exceeds the nameplate capacity; it is all
      of it while new and none of it at zero health. */
  lemma EffectiveCapacityBounds(c: Cell)
    requires Consistent(c)
    ensures 0.0 <= EffectiveCapacity(c) <= c.capacity
    ensures c.soh == FullHealth ==> EffectiveCapacity(c) == c.capacity
    ensures c.soh == 0.0 ==> EffectiveCapacity(c) == 0.0
  {
    var k := c.capacity;
    var h := c.soh / FullHealth;
    assert 0.0 <= h <= 1.0;
    ScaleMonotone(k, h, 1.0);
    ScaleMonotone(k, 0.0, h);
    assert EffectiveCapacity(c) == k * h;
  }

  lemma CapacityScales(lower: Cell, higher: Cell)
    requires 0.0 <= lower.capacity == higher.capacity && lower.soh <= higher.soh
    ensures EffectiveCapacity(lower) <= EffectiveCapacity(higher)
    ensures lower.soh == 0.0 ==> EffectiveCapacity(lower) == 0.0
  {
    var k := lower.capacity;
    ScaleMonotone(k, lower.soh / FullHealth, higher.soh / FullHealth);
    assert EffectiveCapacity(lower) == k * (lower.soh / FullHealth);
    assert EffectiveCapacity(higher) == k * (higher.soh / FullHealth);
  }

  /** Multiplying by a nonnegative number keeps the order. */
  lemma ScaleMonotone(k: real, x: real, y: real)
    requires 0.0 <= k && x <= y
    ensures k * x <= k * y
  {
  }

  /** A charge within the degraded capacity, of a nonnegative amount at a
      nonnegative price, keeps the bookkeeping invariant. */
  lemma ChargeKeepsConsistent(c: Cell, amount: real, price: real)
    requires Consistent(c) && 0.0 <= amount && 0.0 <= price
    ensures Consistent(Charged(c, amount, price).cell)
  {
  }

  /** Every discharge, accepted or refused, keeps the bookkeeping invariant:
      the cost basis left is the average price times the energy left. */
  lemma DischargeKeepsConsistent(c: Cell, amount: real)
    requires Consistent(c)
    ensures Consistent(Discharged(c, amount).cell)
  {
    var r := Discharged(c, amount);
    if r.ok && r.cell.chargeAmount != 0.0 {
      var avg := AveragePrice(c);
      var left := c.chargeAmount - amount;
      assert left > 0.0;
      RemovalAtAverage(c.chargeAmount, c.totalCost, avg, amount);
      assert r.cell.totalCost == avg * left;
    }
  }

  /** Removing `amount` units at the average price `avg` of a pool of `charge`
      units costing `cost` leaves a pool priced at `avg` per unit. */
  lemma RemovalAtAverage(charge: real, cost: real, avg: real, amount: real)
    requires avg * charge == cost
    ensures cost - amount * avg == avg * (charge - amount)
  {
  }

  /** When energy is left, a discharge does not change the average price of
      what remains, and removes exactly `amount` units and `amount` times that
      price from the cost basis. */
  lemma DischargeKeepsAveragePrice(c: Cell, amount: real)
    requires Consistent(c) && amount < c.chargeAmount
    ensures var r := Discharged(c, amount);
      && r.ok
      && r.cell.chargeAmount == c.chargeAmount - amount
      && r.cell.totalCost == c.totalCost - amount * AveragePrice(c)
      && AveragePrice(r.cell) == AveragePrice(c)
  {
    var avg := AveragePrice(c);
    var left := c.chargeAmount - amount;
    RemovalAtAverage(c.chargeAmount, c.totalCost, avg, amount);
    var r := Discharged(c, amount);
    assert r.cell.totalCost == avg * left;
    assert AveragePrice(r.cell) * left == avg * left;
  }

  /** Draining the whole charge leaves an empty battery carrying no cost. */
  lemma DischargeAllEmpties(c: Cell)
    requires Consistent(c)
    ensures var r := Discharged(c, c.chargeAmount);
      r.ok && r.cell.chargeAmount == 0.0 && r.cell.totalCost == 0.0 && AveragePrice(r.cell) == 0.0
  {
  }

  /** A successful charge blends prices: the new cost basis is the old one
      plus `amount * price`, the new average lies between the old average
      and `price`, and it moves whenever `price` differs from the old average
      of a non-empty battery. */
  lemma ChargeBlendsAveragePrice(c: Cell, amount: real, price: real)
    requires Consistent(c) && 0.0 < amount
    requires c.chargeAmount + amount <= EffectiveCapacity(c)
    ensures var r := Charged(c, amount, price); var avg := AveragePrice(c); var blend := AveragePrice(r.cell);
      && r.ok
      && blend * (c.chargeAmount + amount) == avg * c.chargeAmount + amount * price
      && Min(avg, price) <= blend <= Max(avg, price)
      && (0.0 < c.chargeAmount && price != avg ==> blend != avg)
  {
    var avg := AveragePrice(c);
    var r := Charged(c, amount, price);
    var q := c.chargeAmount;
    var total := q + amount;
    var blend := AveragePrice(r.cell);
    assert blend * total == avg * q + amount * price;
    // blend - avg and blend - price are the two sides of the weighted mean
    assert (blend - avg) * total == amount * (price - avg);
    assert (blend - price) * total == q * (avg - price);
    BlendBetween(avg, price, blend, q, amount);
  }

  lemma BlendBetween(avg: real, price: real, blend: real, q: real, amount: real)
    requires 0.0 <= q && 0.0 < amount
    requires (blend - avg) * (q + amount) == amount * (price - avg)
    requires (blend - price) * (q + amount) == q * (avg - price)
    ensures Min(avg, price) <= blend <= Max(avg, price)
    ensures 0.0 < q && price != avg ==> blend != avg
  {
    var total := q + amount;
    SameSign(blend - avg, total, amount * (price - avg));
    SameSign(blend - price, total, q * (avg - price));
    if price >= avg {
      assert amount * (price - avg) >= 0.0;
      assert q * (avg - price) <= 0.0;
    } else {
      assert amount * (price - avg) < 0.0;
      assert q * (avg - price) >= 0.0;
    }
  }

  /** Multiplying by a positive number keeps the sign. */
  lemma SameSign(x: real, positive: real, product: real)
    requires 0.0 < positive && x * positive == product
    ensures x >= 0.0 <==> product >= 0.0
    ensures x <= 0.0 <==> product <= 0.0
    ensures x == 0.0 <==> product == 0.0
  {
  }

  /** A charge of a nonnegative amount keeps the battery within its
      nameplate capacity, and, at a price between `lo` and `hi`, keeps the
      average price of what it holds between them too. */
  lemma ChargeKeepsBounds(c: Cell, amount: real, price: real, lo: real, hi: real)
    requires Consistent(c) && WithinCapacity(c) && PricedWithin(c, lo, hi)
    requires 0.0 <= amount && lo <= price <= hi
    ensures var r := Charged(c, amount, price).cell;
      WithinCapacity(r) && PricedWithin(r, lo, hi)
  {
    if Charged(c, amount, price).ok {
      EffectiveCapacityBounds(c);
      BlendWithin(c.chargeAmount, c.totalCost, amount, price, lo, hi);
    }
  }

  /** Adding energy bought at a price inside the band keeps a cost that was
      inside the band for the old amount inside it for the new amount. */
  lemma BlendWithin(q: real, t: real, amount: real, price: real, lo: real, hi: real)
    requires lo * q <= t <= hi * q && 0.0 <= amount && lo <= price <= hi
    ensures lo * (q + amount) <= t + amount * price <= hi * (q + amount)
  {
    ScaleMonotone(amount, lo, price);
    ScaleMonotone(amount, price, hi);
    assert lo * (q + amount) == lo * q + amount * lo;
    assert hi * (q + amount) == hi * q + amount * hi;
  }

  /** A discharge of a nonnegative amount only lowers the charge, and what
      is left keeps the average price it had, so both bounds survive. */
  lemma DischargeKeepsBounds(c: Cell, amount: real, lo: real, hi: real)
    requires Consistent(c) && WithinCapacity(c) && PricedWithin(c, lo, hi) && 0.0 <= amount
    ensures var r := Discharged(c, amount).cell;
      WithinCapacity(r) && PricedWithin(r, lo, hi)
  {
    var r := Discharged(c, amount);
    if r.ok && r.cell.chargeAmount != 0.0 {
      var avg := AveragePrice(c);
      var left := c.chargeAmount - amount;
      AverageWithin(c, lo, hi);
      RemovalAtAverage(c.chargeAmount, c.totalCost, avg, amount);
      assert r.cell.totalCost == avg * left;
      ScaleMonotone(left, lo, avg);
      ScaleMonotone(left, avg, hi);
    }
  }

  /** A non-empty battery whose cost lies between `lo` and `hi` per kWh has
      its average price between them. */
  lemma AverageWithin(c: Cell, lo: real, hi: real)
    requires PricedWithin(c, lo, hi) && 0.0 < c.chargeAmount
    ensures lo <= AveragePrice(c) <= hi
  {
    var avg := AveragePrice(c);
    if avg < lo {
      ScaleStrict(c.chargeAmount, avg, lo);
      assert false;
    }
    if hi < avg {
      ScaleStrict(c.chargeAmount, hi, avg);
      assert false;
    }
  }

  /** Multiplying by a positive number keeps a strict order. */
  lemma ScaleStrict(k: real, x: real, y: real)
    requires 0.0 < k && x < y
    ensures x * k < y * k
  {
  }

  /** When every unit held cost at least a positive `lo`, charge and cost
      reach zero together: no stored energy is free. */
  lemma ChargeAndCostVanishTogether(c: Cell, lo: real, hi: real)
    requires Consistent(c) && PricedWithin(c, lo, hi) && 0.0 < lo
    ensures c.chargeAmount == 0.0 <==> c.totalCost == 0.0
    ensures 0.0 < c.chargeAmount ==> lo <= AveragePrice(c) <= hi
  {
    if 0.0 < c.chargeAmount {
      AverageWithin(c, lo, hi);
      ScaleStrict(c.chargeAmount, 0.0, lo);
    }
  }

  /** Without a positive price floor the converse fails: energy charged at
      price 0 into an empty battery is held at no cost, and the battery is
      still consistent. */
  lemma FreeEnergyCarriesNoCost()
    ensures var r := Charged(Initial().(chargeAmount := 0.0, totalCost := 0.0), 1.0, 0.0);
      && r.ok && Consistent(r.cell)
      && r.cell.chargeAmount == 1.0 && r.cell.totalCost == 0.0
  {
  }

  /** Discharging `amount` and buying it back at the average price it left
      at restores the charge and the cost basis (when the battery was within
      its degraded capacity to begin with). */
  lemma DischargeChargeRoundTrip(c: Cell, amount: real)
    requires Consistent(c) && 0.0 <= amount <= c.chargeAmount
    requires c.chargeAmount <= EffectiveCapacity(c)
    ensures var d := Discharged(c, amount);
      d.ok && Charged(d.cell, amount, AveragePrice(c)) == Outcome(true, c)
  {
    var avg := AveragePrice(c);
    var d := Discharged(c, amount);
    if amount < c.chargeAmount {
      DischargeKeepsAveragePrice(c, amount);
    } else {
      assert amount * avg == c.totalCost;
    }
    assert d.cell.chargeAmount + amount == c.chargeAmount;
    assert d.cell.totalCost + amount * avg == c.totalCost;
  }

  /** The investment counter keeps tracking what the capacity is worth as
      long as only upgrades change the capacity. */
  lemma UpgradeTracksInvestment(c: Cell, amount: real)
    requires c.totalInvestment == InvestmentCost(c)
    ensures Upgraded(c, amount).totalInvestment == InvestmentCost(Upgraded(c, amount))
  {
  }

  /** The worked example: the initial battery (150 kWh, 50 kWh at $5.00)
      charged with 30 kWh at 0.20 holds 80 kWh worth $11.00, 0.1375 per kWh;
      draining all 80 kWh empties it of energy and cost. */
  lemma InitialChargeScenario()
    ensures var r := Charged(Initial(), 30.0, 0.20);
      && r.ok && r.cell.chargeAmount == 80.0 && r.cell.totalCost == 11.0
      && AveragePrice(r.cell) == 0.1375
      && Discharged(r.cell, 80.0) == Outcome(true, r.cell.(chargeAmount := 0.0, totalCost := 0.0))
  {
  }

  /** The battery object; its methods change the fields in place. */
  class BatteryManager {
    var capacity: real
    var chargeAmount: real
    var totalCost: real
    var soh: real
    var hoursPassed: nat
    var totalInvestment: real

    function State(): Cell
      reads this
    {
      Cell(capacity, chargeAmount, totalCost, soh, hoursPassed, totalInvestment)
    }

    constructor ()
      ensures State() == Initial()
    {
      capacity := InitialCapacity;
      chargeAmount := InitialCharge;
      totalCost := InitialCharge * InitialUnitCost;
      soh := FullHealth;
      hoursPassed := 0;
      totalInvestment := InitialCapacity * InvestmentPerKwh;
    }

    method UpgradeCapacity(amount: real)
      modifies this
      ensures State() == Upgraded(old(State()), amount)
    {
      var cost := amount * InvestmentPerKwh;
      capacity := capacity + amount;
      totalInvestment := totalInvestment + cost;
    }

    method Tick()
      modifies this
      ensures State() == Aged(old(State()))
    {
      hoursPassed := hoursPassed + 1;
      soh := Max(0.0, FullHealth * (1.0 - hoursPassed as real / LifespanHours as real));
    }

    method Charge(amount: real, price: real) returns (ok: bool)
      modifies this
      ensures Outcome(ok, State()) == Charged(old(State()), amount, price)
    {
      var effectiveCapacity := capacity * (soh / FullHealth);
      if chargeAmount + amount > effectiveCapacity {
        return false;
      }
      chargeAmount := chargeAmount + amount;
      totalCost := totalCost + amount * price;
      return true;
    }

    method Discharge(amount: real) returns (ok: bool)
      modifies this
      ensures Outcome(ok, State()) == Discharged(old(State()), amount)
    {
      if chargeAmount - amount < 0.0 {
        return false;
      }
      var avgPrice := GetAveragePrice();
      chargeAmount := chargeAmount - amount;
      totalCost := totalCost - amount * avgPrice;
      if chargeAmount <= 0.0 {
        chargeAmount := 0.0;
        totalCost := 0.0;
      }
      return true;
    }

    function GetAveragePrice(): (p: real)
      reads this
      ensures chargeAmount == 0.0 ==> p == 0.0
      ensures chargeAmount != 0.0 ==> p * chargeAmount == totalCost
    {
      AveragePrice(State())
    }

    function GetInvestmentCost(): (v: real)
      reads this
      ensures v / InvestmentPerKwh == capacity
      ensures 0.0 <= capacity ==> 0.0 <= v
    {
      InvestmentCost(State())
    }
  }
}
