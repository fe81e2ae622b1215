/** The simulation loop and the player's trade actions: the hourly tick runs
    battery aging, a market step and the house's consumption in that order,
    pays the market energy from the wallet, credits a monthly salary and,
    when enabled, buys one kWh whenever the price is at or below a
    threshold. Buying, selling and upgrading the battery are the player's
    actions between ticks. The clock is an input: each tick is told the
    hour and month it has advanced to. */
module Simulation {
  import opened Battery
  import House
  import Market
  import Wallet

  const StartBalance: real := 5000.0
  /** The clock starts on 1 January, month 0 of the 0-based calendar. */
  const StartMonth: int := 0
  const DefaultTradeAmount: nat := 5
  const Salary: real := 200.0
  /** kWh bought per auto-buy. */
  const AutoBuyAmount: real := 1.0
  /** kWh of capacity added per upgrade. */
  const UpgradeAmount: real := 50.0

  /** A snapshot of the whole simulation state. */
  datatype World = World(
    cell: Cell,
    meter: House.Meter,
    balance: real,
    feed: Market.Feed,
    lastMonth: int,
    autoBuyEnabled: bool,
    tradeAmount: nat)

  /** The invariant every reachable state keeps. */
  predicate Sound(w: World) {
    && Consistent(w.cell)
    && WithinCapacity(w.cell)
    && PricedWithin(w.cell, Market.MinPrice, Market.MaxPrice)
    && House.Sound(w.meter)
    && Market.Sound(w.feed)
    && 0.0 <= w.balance
  }

  /** The simulation as started: fresh components, 5,000 in the wallet,
      auto-buy off, 5 kWh per trade. */
  function InitialWorld(): (w: World)
    ensures Sound(w)
    ensures w.lastMonth == StartMonth && !w.autoBuyEnabled
  {
    World(Initial(), House.InitialMeter(), StartBalance, Market.InitialFeed(),
          StartMonth, false, DefaultTradeAmount)
  }

  /** Tick steps 1 to 4: age the battery, step the market, consume the hour
      at the new price, and pay for the market energy if any was used; a
      refused payment is ignored. */
  function Advanced(w: World, hour: int, month: int, noise: real, change: real): World {
    var cell := Aged(w.cell);
    var feed := Market.Updated(w.feed, change);
    var r := House.Consumed(w.meter, cell, feed.currentPrice, hour, month, noise);
    w.(cell := r.cell, meter := r.meter, feed := feed,
       balance := PaidForEnergy(w.balance, r.marketEnergy, feed.currentPrice))
  }

  /** The wallet after paying for `energy` kWh bought at `price`, when any
      was bought; a refused payment leaves it as it was. */
  function PaidForEnergy(balance: real, energy: real, price: real): (paid: real)
    ensures energy > 0.0 && energy * price <= balance ==> paid == balance - energy * price
    ensures energy <= 0.0 || energy * price > balance ==> paid == balance
  {
    if energy > 0.0 then Wallet.Debited(balance, energy * price).balance else balance
  }

  /** Tick step 5: the monthly salary, paid when the month has changed. */
  function Paid(w: World, month: int): (r: World)
    ensures r.lastMonth == month
    ensures r.balance == w.balance + (if month != w.lastMonth then Salary else 0.0)
    ensures r.(balance := w.balance, lastMonth := w.lastMonth) == w
  {
    if month != w.lastMonth then w.(balance := w.balance + Salary, lastMonth := month) else w
  }

  /** Tick step 6: when enabled and the price is at or below `threshold`, pay
      for one kWh and then try to store it; a refused charge keeps the money. */
  function AutoBought(w: World, threshold: real): World {
    var price := w.feed.currentPrice;
    if w.autoBuyEnabled && price <= threshold then
      var d := Wallet.Debited(w.balance, price);
      if d.ok then w.(balance := d.balance, cell := Charged(w.cell, AutoBuyAmount, price).cell) else w
    else w
  }

  /** One whole tick, in the source's fixed order. */
  function Ticked(w: World, hour: int, month: int, noise: real, change: real, threshold: real): World {
    AutoBought(Paid(Advanced(w, hour, month, noise, change), month), threshold)
  }

  /** The buy button: pay for `tradeAmount` kWh, then try to store them. */
  function Bought(w: World): World {
    var price := w.feed.currentPrice;
    var d := Wallet.Debited(w.balance, w.tradeAmount as real * price);
    if d.ok then w.(balance := d.balance, cell := Charged(w.cell, w.tradeAmount as real, price).cell)
    else w
  }

  /** The sell button: take `tradeAmount` kWh out of the battery, then get paid. */
  function Sold(w: World): World {
    var r := Discharged(w.cell, w.tradeAmount as real);
    if r.ok then w.(cell := r.cell, balance := w.balance + w.tradeAmount as real * w.feed.currentPrice)
    else w
  }

  /** The upgrade button: pay for 50 kWh of capacity, then install it. */
  function CapacityBought(w: World): World {
    var d := Wallet.Debited(w.balance, UpgradeAmount * InvestmentPerKwh);
    if d.ok then w.(balance := d.balance, cell := Upgraded(w.cell, UpgradeAmount)) else w
  }

  /** The inputs of one tick: the clock after it and the two random draws. */
  datatype Hour = Hour(hour: int, month: int, noise: real, change: real, threshold: real)

  /** What can happen between two snapshots: the timer fires, or the player
      presses a button, flips the auto-buy checkbox or picks a trade amount. */
  datatype Event =
    | Elapsed(h: Hour)
    | BuyPressed
    | SellPressed
    | UpgradePressed
    | AutoBuyToggled
    | TradeAmountSelected(amount: nat)

  /** The effect of one event on the simulation. */
  function Step(w: World, e: Event): World {
    match e
    case Elapsed(h) => Ticked(w, h.hour, h.month, h.noise, h.change, h.threshold)
    case BuyPressed => Bought(w)
    case SellPressed => Sold(w)
    case UpgradePressed => CapacityBought(w)
    case AutoBuyToggled => w.(autoBuyEnabled := !w.autoBuyEnabled)
    case TradeAmountSelected(amount) => w.(tradeAmount := amount)
  }

  /** The timer's noise draws come from [0.9, 1.1); the other events carry no draw. */
  predicate Plausible(e: Event) {
    e.Elapsed? ==> House.InNoiseBand(e.h.noise)
  }

  /** A session: the events applied in order. */
  function Run(w: World, events: seq<Event>): World
    decreases |events|
  {
    if events == [] then w else Run(Step(w, events[0]), events[1..])
  }

  // ---------------------------------------------------------------------
  // Properties of the tick and of the player's actions

  /** A tick keeps every component sound: the battery's bookkeeping holds,
      the house's totals stay nonnegative and its history within 50
      entries, the price and its history stay in the band, and the wallet
      never goes negative. */
  lemma TickKeepsSound(w: World, hour: int, month: int, noise: real, change: real, threshold: real)
    requires Sound(w) && House.InNoiseBand(noise)
    ensures Sound(Ticked(w, hour, month, noise, change, threshold))
  {
    AdvanceKeepsSound(w, hour, month, noise, change);
    var p := Paid(Advanced(w, hour, month, noise, change), month);
    assert Sound(p);
    AutoBuyKeepsSound(p, threshold);
  }

  lemma AdvanceKeepsSound(w: World, hour: int, month: int, noise: real, change: real)
    requires Sound(w) && House.InNoiseBand(noise)
    ensures Sound(Advanced(w, hour, month, noise, change))
  {
    var cell := Aged(w.cell);
    assert Consistent(cell);
    assert WithinCapacity(cell) && PricedWithin(cell, Market.MinPrice, Market.MaxPrice);
    var feed := Market.Updated(w.feed, change);
    Market.UpdateKeepsSound(w.feed, change);
    assert 0.0 <= feed.currentPrice;
    House.ConsumeKeepsSound(w.meter, cell, feed.currentPrice, hour, month, noise);
    var r := House.Consumed(w.meter, cell, feed.currentPrice, hour, month, noise);
    var usage := House.HourlyUsage(hour, noise);
    DischargeKeepsBounds(cell, House.BatteryDraw(cell, usage), Market.MinPrice, Market.MaxPrice);
    assert r.cell == House.Drawn(cell, usage);
    var a := Advanced(w, hour, month, noise, change);
    assert a.cell == r.cell && a.meter == r.meter && a.feed == feed;
    Wallet.DebitKeepsNonnegative(w.balance, r.marketEnergy * feed.currentPrice);
    assert 0.0 <= PaidForEnergy(w.balance, r.marketEnergy, feed.currentPrice);
  }

  lemma AutoBuyKeepsSound(w: World, threshold: real)
    requires Sound(w)
    ensures Sound(AutoBought(w, threshold))
  {
    ChargeKeepsConsistent(w.cell, AutoBuyAmount, w.feed.currentPrice);
    ChargeKeepsBounds(w.cell, AutoBuyAmount, w.feed.currentPrice, Market.MinPrice, Market.MaxPrice);
  }

  /** Every event keeps the simulation sound. */
  lemma StepKeepsSound(w: World, e: Event)
    requires Sound(w) && Plausible(e)
    ensures Sound(Step(w, e))
  {
    match e
    case Elapsed(h) => TickKeepsSound(w, h.hour, h.month, h.noise, h.change, h.threshold);
    case BuyPressed => BuyKeepsSound(w);
    case SellPressed => SellKeepsSound(w);
    case UpgradePressed => UpgradeKeepsSound(w);
    case AutoBuyToggled =>
    case TradeAmountSelected(_) =>
  }

  /** Every session from a sound state, and so from the start, stays sound:
      ticks and the player's actions in any interleaving. */
  lemma {:induction false} RunKeepsSound(w: World, events: seq<Event>)
    requires Sound(w)
    requires forall i :: 0 <= i < |events| ==> Plausible(events[i])
    ensures Sound(Run(w, events))
    decreases |events|
  {
    if events != [] {
      StepKeepsSound(w, events[0]);
      RunKeepsSound(Step(w, events[0]), events[1..]);
    }
  }

  /** Every state reachable from the start keeps its stored energy priced:
      the conclusions of `SoundStorageIsPriced` hold after any session. */
  lemma ReachableStorageIsPriced(events: seq<Event>)
    requires forall i :: 0 <= i < |events| ==> Plausible(events[i])
    ensures var w := Run(InitialWorld(), events);
      && w.cell.chargeAmount <= w.cell.capacity
      && (w.cell.chargeAmount == 0.0 <==> w.cell.totalCost == 0.0)
      && (0.0 < w.cell.chargeAmount ==> Market.InBand(AveragePrice(w.cell)))
  {
    RunKeepsSound(InitialWorld(), events);
    SoundStorageIsPriced(Run(InitialWorld(), events));
  }

  /** In every sound state, and so in every state reachable from the start,
      the energy in the battery fits its nameplate capacity, its average
      price lies in the market's band, and charge and cost reach zero
      together: no stored energy is free and no cost outlives the energy. */
  lemma SoundStorageIsPriced(w: World)
    requires Sound(w)
    ensures w.cell.chargeAmount <= w.cell.capacity
    ensures w.cell.chargeAmount == 0.0 <==> w.cell.totalCost == 0.0
    ensures 0.0 < w.cell.chargeAmount ==> Market.InBand(AveragePrice(w.cell))
  {
    ChargeAndCostVanishTogether(w.cell, Market.MinPrice, Market.MaxPrice);
  }

  /** Within a tick the demand is met in full: the battery's charge falls by
      its share and the market supplies the rest, priced at the market's new
      price, and the wallet pays for the market share when it can. */
  lemma TickServesDemand(w: World, hour: int, month: int, noise: real, change: real)
    requires Sound(w) && House.InNoiseBand(noise)
    ensures var a := Advanced(w, hour, month, noise, change);
      var usage := House.HourlyUsage(hour, noise);
      var cell := Aged(w.cell);
      var marketEnergy := House.MarketEnergy(cell, usage);
      && 0.0 <= marketEnergy
      && (w.cell.chargeAmount - a.cell.chargeAmount) + marketEnergy == usage
      && a.feed.currentPrice == Market.NextPrice(w.feed.currentPrice, change)
      && a.balance == PaidForEnergy(w.balance, marketEnergy, a.feed.currentPrice)
  {
    var cell := Aged(w.cell);
    var usage := House.HourlyUsage(hour, noise);
    House.ConsumeMeetsDemand(cell, usage);
    var feed := Market.Updated(w.feed, change);
    House.ConsumeAccumulates(w.meter, cell, feed.currentPrice, hour, month, noise);
    var r := House.Consumed(w.meter, cell, feed.currentPrice, hour, month, noise);
    var a := Advanced(w, hour, month, noise, change);
    assert a.cell == House.Drawn(cell, usage) && a.feed == feed;
    assert a.balance == PaidForEnergy(w.balance, House.MarketEnergy(cell, usage), feed.currentPrice);
  }

  /** The salary of 200 is credited after the consumption step exactly when
      the tick's month differs from the last one seen, and that month is
      then remembered; the first tick of the simulation, in January, pays no
      salary. */
  lemma SalaryOnMonthChange(w: World, hour: int, month: int, noise: real, change: real, threshold: real)
    ensures var a := Advanced(w, hour, month, noise, change);
      && a.lastMonth == w.lastMonth
      && Paid(a, month).balance == a.balance + (if month != w.lastMonth then Salary else 0.0)
      && Paid(a, month).lastMonth == month
      && Ticked(w, hour, month, noise, change, threshold).lastMonth == month
      && (w == InitialWorld() && month == StartMonth ==> Paid(a, month) == a)
  {
  }

  /** Auto-buy does nothing unless it is enabled and the price is at or
      below the threshold, and nothing when the wallet cannot pay; otherwise
      the price is paid and the battery charged with one kWh at that price,
      unless the battery is full, in which case the money is gone and the
      battery unchanged. */
  lemma AutoBuyGuarded(w: World, threshold: real)
    ensures var price := w.feed.currentPrice; var r := AutoBought(w, threshold);
      && (!(w.autoBuyEnabled && price <= threshold) ==> r == w)
      && (price > w.balance ==> r == w)
      && (w.autoBuyEnabled && price <= threshold && price <= w.balance ==>
            r == w.(balance := w.balance - price, cell := Charged(w.cell, AutoBuyAmount, price).cell))
      && (w.autoBuyEnabled && price <= threshold && price <= w.balance
          && w.cell.chargeAmount + AutoBuyAmount > EffectiveCapacity(w.cell) ==>
            r == w.(balance := w.balance - price))
  {
  }

  /** Buying pays `tradeAmount` times the price and then tries to charge that
      much; without the funds neither wallet nor battery changes. */
  lemma BuyGuarded(w: World)
    ensures var cost := w.tradeAmount as real * w.feed.currentPrice; var r := Bought(w);
      && (cost > w.balance ==> r == w)
      && (cost <= w.balance ==>
            r == w.(balance := w.balance - cost,
                    cell := Charged(w.cell, w.tradeAmount as real, w.feed.currentPrice).cell))
  {
  }

  /** Selling credits `tradeAmount` times the price exactly when the battery
      can deliver `tradeAmount`; otherwise nothing changes. */
  lemma SellGuarded(w: World)
    ensures var r := Sold(w);
      && (w.tradeAmount as real > w.cell.chargeAmount ==> r == w)
      && (w.tradeAmount as real <= w.cell.chargeAmount ==>
            r.balance == w.balance + w.tradeAmount as real * w.feed.currentPrice
            && r.cell == Discharged(w.cell, w.tradeAmount as real).cell)
  {
  }

  /** An upgrade adds 50 kWh of capacity exactly when the wallet can pay
      50 * 336.87; otherwise nothing changes. */
  lemma UpgradeGuarded(w: World)
    ensures var cost := UpgradeAmount * InvestmentPerKwh; var r := CapacityBought(w);
      && (cost > w.balance ==> r == w)
      && (cost <= w.balance ==>
            r.balance == w.balance - cost && r.cell.capacity == w.cell.capacity + UpgradeAmount
            && r.cell.chargeAmount == w.cell.chargeAmount && r.cell.totalCost == w.cell.totalCost)
  {
  }

  /** The player's actions keep the simulation sound too. */
  lemma BuyKeepsSound(w: World)
    requires Sound(w)
    ensures Sound(Bought(w))
  {
    ChargeKeepsConsistent(w.cell, w.tradeAmount as real, w.feed.currentPrice);
    ChargeKeepsBounds(w.cell, w.tradeAmount as real, w.feed.currentPrice, Market.MinPrice, Market.MaxPrice);
  }

  lemma SellKeepsSound(w: World)
    requires Sound(w)
    ensures Sound(Sold(w))
  {
    DischargeKeepsConsistent(w.cell, w.tradeAmount as real);
    DischargeKeepsBounds(w.cell, w.tradeAmount as real, Market.MinPrice, Market.MaxPrice);
    assert 0.0 <= w.tradeAmount as real * w.feed.currentPrice;
  }

  lemma UpgradeKeepsSound(w: World)
    requires Sound(w)
    ensures Sound(CapacityBought(w))
  {
  }

  /** The whole simulation, owning one object of each component. */
  class Simulation {
    const battery: BatteryManager
    const house: House.HouseManager
    const wallet: Wallet.WalletManager
    const market: Market.MarketSimulator
    var autoBuyEnabled: bool
    var tradeAmount: nat
    var lastMonth: int

    function State(): World
      reads this, battery, house, wallet, market
    {
      World(battery.State(), house.State(), wallet.balance, market.State(),
            lastMonth, autoBuyEnabled, tradeAmount)
    }

    constructor ()
      ensures fresh(battery) && fresh(house) && fresh(wallet) && fresh(market)
      ensures State() == InitialWorld()
    {
      market := new Market.MarketSimulator();
      battery := new BatteryManager();
      house := new House.HouseManager();
      wallet := new Wallet.WalletManager(StartBalance);
      autoBuyEnabled := false;
      tradeAmount := DefaultTradeAmount;
      lastMonth := StartMonth;
    }

    /** One hour. `hour` and `month` are the clock after it advanced; `noise`
        and `change` stand for the random draws of the house and the market;
        `threshold` is the auto-buy price set by the player. */
    method Tick(hour: int, month: int, noise: real, change: real, threshold: real)
      modifies this, battery, house, wallet, market
      ensures State() == Ticked(old(State()), hour, month, noise, change, threshold)
    {
      Advance(hour, month, noise, change);
      PaySalary(month);
      AutoBuy(threshold);
    }

    /** Tick steps 1 to 4. */
    method Advance(hour: int, month: int, noise: real, change: real)
      modifies battery, house, wallet, market
      ensures State() == Advanced(old(State()), hour, month, noise, change)
    {
      ghost var w := State();
      battery.Tick();
      market.Update(change);
      ghost var feed := Market.Updated(w.feed, change);
      var marketEnergyUsed := house.Consume(battery, market.currentPrice, hour, month, noise);
      ghost var r := House.Consumed(w.meter, Aged(w.cell), feed.currentPrice, hour, month, noise);
      assert house.State() == r.meter && battery.State() == r.cell && marketEnergyUsed == r.marketEnergy;
      PayForEnergy(marketEnergyUsed);
    }

    /** Tick step 4: pay for the market energy, if any was used. */
    method PayForEnergy(marketEnergyUsed: real)
      modifies wallet
      ensures wallet.balance == PaidForEnergy(old(wallet.balance), marketEnergyUsed, market.currentPrice)
    {
      if marketEnergyUsed > 0.0 {
        var paid := wallet.Subtract(marketEnergyUsed * market.currentPrice);
      }
    }

    /** Tick step 5. */
    method PaySalary(month: int)
      modifies this, wallet
      ensures State() == Paid(old(State()), month)
    {
      if month != lastMonth {
        wallet.Add(Salary);
        lastMonth := month;
      }
    }

    /** Tick step 6. */
    method AutoBuy(threshold: real)
      modifies battery, wallet
      ensures State() == AutoBought(old(State()), threshold)
    {
      if autoBuyEnabled {
        if market.currentPrice <= threshold {
          var paid := wallet.Subtract(market.currentPrice);
          if paid {
            var charged := battery.Charge(AutoBuyAmount, market.currentPrice);
          }
        }
      }
    }

    method Buy()
      modifies battery, wallet
      ensures State() == Bought(old(State()))
    {
      var totalCost := tradeAmount as real * market.currentPrice;
      var paid := wallet.Subtract(totalCost);
      if paid {
        var charged := battery.Charge(tradeAmount as real, market.currentPrice);
      }
    }

    method Sell()
      modifies battery, wallet
      ensures State() == Sold(old(State()))
    {
      var sold := battery.Discharge(tradeAmount as real);
      if sold {
        wallet.Add(tradeAmount as real * market.currentPrice);
      }
    }

    method UpgradeCapacity()
      modifies battery, wallet
      ensures State() == CapacityBought(old(State()))
    {
      var upgradeCost := UpgradeAmount * InvestmentPerKwh;
      var paid := wallet.Subtract(upgradeCost);
      if paid {
        battery.UpgradeCapacity(UpgradeAmount);
      }
    }

    method ToggleAutoBuy()
      modifies this
      ensures State() == old(State()).(autoBuyEnabled := !old(autoBuyEnabled))
    {
      autoBuyEnabled := !autoBuyEnabled;
    }

    method SelectTradeAmount(amount: nat)
      modifies this
      ensures State() == old(State()).(tradeAmount := amount)
    {
      tradeAmount := amount;
    }
  }
}
