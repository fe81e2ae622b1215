# Energy-storage economy, modelled in Dafny

This project models the hourly energy-economy simulation of the
`project_ess` browser game. The game has four components:

- a home **battery** that stores energy at a weighted-average cost basis and
  loses health over a twelve-year lifespan;
- a **house** whose hourly demand follows a 24-hour profile, is met from the
  battery first and from the market for the rest, and is tallied per month;
- a **wallet** with a credit and a refusable debit;
- a **market** whose price takes a small random step each hour and stays
  within 0.05 to 0.15.

A **tick** drives these components once per simulated hour, in a fixed
order. The player can also buy energy, sell energy and buy extra battery
capacity.

Every component appears twice in the model:

- **Snapshot**: a value datatype (`Cell`, `Meter`, `Feed`, `World`; the
  wallet's state is its bare balance) with pure transition functions
  (`Charged`, `Discharged`, `Consumed`, `Debited`, `Updated`, `Ticked`, …).
  These are the specification. The lemmas are stated over them. `Outcome`
  and `Debit` pair the flag that `charge`, `discharge` and `subtract` return
  with the state they leave.
- **Object**: a class with the source's fields (`BatteryManager`,
  `HouseManager`, `WalletManager`, `MarketSimulator`, `Simulation`). Its
  methods update those fields in place, in the same steps as the source,
  and each method ensures that its new state is the transition function
  applied to its old state.

Modules:

| module | file | models |
|---|---|---|
| `Numeric` | numeric.dfy | two-argument `Math.min` / `Math.max` |
| `Buffer` | buffer.dfy | the push-then-shift capped array used for both history buffers |
| `Battery` | battery.dfy | src/battery.js |
| `House` | house.dfy | src/house.js |
| `Wallet` | wallet.dfy | src/wallet.js |
| `Market` | market.dfy | src/market.js |
| `Simulation` | simulation.dfy | the tick loop and the trade handlers of src/main.js |

All quantities are `real`, so the bookkeeping is exact.

The clock is an input: a tick is told the hour and the month (0-based) it
has advanced to. The simulation starts on 1 January (src/time.js:3).

The two `Math.random` draws are parameters:

- House: `noise`, in [0.9, 1.1) (`House.InNoiseBand`).
- Market: `change`. For `random` in [0, 1) the source draws
  `(random - 0.5) * 0.01`, which lies in [-0.005, 0.005)
  (`Market.InChangeBand`).

Lemmas that need these bands take them as preconditions.

The auto-buy threshold is read from an input field on each tick while
auto-buy is enabled (src/main.js:80). It is a parameter of `Tick`, used only
on that branch. The trade amount set by the amount buttons is the
argument of `SelectTradeAmount`.

The repository ships generators for an hourly (month, day, hour) price
table (generate_smp.py, generate_smp.js), and the tick passes the clock to
the market "for SMP lookup" (src/main.js:65). The market code does no such
lookup: `update()` takes no argument and the price walks randomly. The
model follows the code.

Two facts about the battery's bookkeeping depend on what the code does
rather than on the battery alone:

- **Charge and cost vanish together only at positive prices.** A
  consistent battery guarantees that an empty battery carries no cost. The
  converse needs every charge to be paid at a positive price: energy charged
  at price 0 is held at no cost (`Battery.FreeEnergyCarriesNoCost`). The game
  charges only at market prices, which stay within 0.05 to 0.15, and starts
  at 0.10 per kWh. So every state reachable from the start, by ticks and
  the player's actions in any order, keeps the average price within
  that band, and charge and cost reach zero together
  (`Simulation.SoundStorageIsPriced`, `Simulation.ReachableStorageIsPriced`).
- **The degraded capacity limits charging, not holding.** `charge` refuses
  to go above capacity × soh / 100, but `tick` lowers the health without
  touching the charge. Past two thirds of the lifespan the initial 50 kWh
  exceed the degraded capacity (`Battery.AgingOutgrowsDegradedCapacity`).
  What does hold in every reachable state is the nameplate bound: the charge
  never exceeds `capacity` (`Simulation.SoundStorageIsPriced`).

Two behaviours of the code are modelled as written:

- **Money can be lost.** Auto-buy and the buy button debit the wallet before
  trying to charge the battery. When the charge is refused because the
  battery is full, the money is gone and the battery is unchanged
  (`Simulation.AutoBuyGuarded`).
- **Unpaid energy is free.** When the wallet cannot pay for the hour's market
  energy, the refused debit is ignored and the energy has still been
  consumed (`Simulation.PaidForEnergy`).

## Model

| member | source | states |
|---|---|---|
| Battery.Initial | src/battery.js:3-9 | the new battery is consistent, its 50 kWh cost 0.10 per kWh, its charge fits the capacity, and its investment counter equals the capacity at 336.87 per kWh |
| Battery.BatteryManager.constructor | src/battery.js:2-11 | the object starts in the `Initial()` snapshot |
| Battery.SohAt | src/battery.js:23 | health after `h` hours lies in [0, 100] and is exactly 0 from the end of the 105,120-hour lifespan on, never before |
| Battery.AveragePrice | src/battery.js:62-65 | 0 for an empty battery; otherwise the unit price that, times the charge, gives the cost basis; never negative for a consistent battery |
| Battery.BatteryManager.GetAveragePrice | src/battery.js:62-65 | the same two cases read from the object's fields |
| Battery.Charged | src/battery.js:27-40 | accepted exactly when the new charge fits within capacity × soh / 100; a refusal changes nothing; an accepted charge adds `amount` to the charge and `amount * price` to the cost and leaves the charge within the degraded capacity; no other field changes |
| Battery.BatteryManager.Charge | src/battery.js:27-40 | the method's flag and new fields are those of `Charged` |
| Battery.Discharged | src/battery.js:42-60 | accepted exactly when `amount` does not exceed the charge; a refusal changes nothing; the charge left is max(0, charge − amount); a battery left empty carries no cost; otherwise the cost falls by `amount` times the prior average price; no other field changes |
| Battery.BatteryManager.Discharge | src/battery.js:42-60 | the method's flag and new fields are those of `Discharged` |
| Battery.Aged | src/battery.js:20-25 | one more hour of age, with the health that the new age dictates whatever the old state; consistency is kept and health does not rise; nothing else changes |
| Battery.BatteryManager.Tick | src/battery.js:20-25 | the method's new fields are those of `Aged` |
| Battery.Upgraded | src/battery.js:13-18 | capacity grows by `amount` and the investment counter by what that capacity costs; nothing else changes |
| Battery.BatteryManager.UpgradeCapacity | src/battery.js:13-18 | the method's new fields are those of `Upgraded` |
| Battery.SohNonIncreasing | src/battery.js:23 | health as a function of age never increases |
| Battery.AgedBy | src/battery.js:20-25 | `n` ticks of the battery in a row; stated by `AgingDegrades`, `AgingShrinksCapacity` and `AgingOutgrowsDegradedCapacity` |
| Battery.AgingDegrades | src/battery.js:20-25 | `n` ticks add exactly `n` hours, keep the battery consistent, never raise health, reach zero health at the end of the lifespan, and touch nothing else |
| Battery.AgingShrinksCapacity | src/battery.js:29 | the degraded capacity never grows with age and is 0 once the lifespan is over |
| Battery.ChargeKeepsConsistent | src/battery.js:27-40 | a charge of a nonnegative amount at a nonnegative price keeps the bookkeeping invariant |
| Battery.DischargeKeepsConsistent | src/battery.js:42-60 | every discharge, accepted or refused, keeps the bookkeeping invariant, so an empty battery never carries cost |
| Battery.DischargeKeepsAveragePrice | src/battery.js:47-50 | with energy left, a discharge removes exactly `amount` and `amount` × average, and leaves the average price unchanged |
| Battery.DischargeAllEmpties | src/battery.js:53-56 | draining the whole charge leaves zero charge, zero cost and a zero average price |
| Battery.ChargeBlendsAveragePrice | src/battery.js:36-37 | after a charge the new average is the weighted mean of the old average and `price`; it lies between them and moves whenever they differ on a non-empty battery |
| Battery.DischargeChargeRoundTrip | src/battery.js:27-60 | discharging `amount` and charging it back at the average price it left at restores the battery exactly |
| Battery.UpgradeTracksInvestment | src/battery.js:67-70 | if the investment counter equals `getInvestmentCost()` before an upgrade, it still does after |
| Battery.InitialChargeScenario | src/battery.js:3-5 | the new battery charged with 30 kWh at 0.20 holds 80 kWh that cost 11.0, 0.1375 per kWh; draining all 80 kWh empties it |
| Battery.EffectiveCapacity | src/battery.js:29 | the degraded capacity capacity × soh / 100; stated by `EffectiveCapacityBounds` and `CapacityScales` |
| Battery.EffectiveCapacityBounds | src/battery.js:29 | the degraded capacity `capacity × soh / 100` of a consistent battery lies within [0, capacity]; it is the full capacity while new and 0 at zero health |
| Battery.InvestmentCost | src/battery.js:67-70 | the capacity priced at 336.87 per kWh, from which the capacity can be read back; nonnegative for a nonnegative capacity |
| Battery.BatteryManager.GetInvestmentCost | src/battery.js:67-70 | the same value read from the object's capacity |
| Battery.AgingOutgrowsDegradedCapacity | src/battery.js:20-25 | aging does not lower the charge: past two thirds of the lifespan the initial battery's 50 kWh exceed its degraded capacity, though they still fit its nameplate capacity |
| Battery.ChargeKeepsBounds | src/battery.js:27-40 | an accepted charge of a nonnegative amount keeps the charge within the nameplate capacity; at a price between `lo` and `hi` it keeps the average price between them |
| Battery.DischargeKeepsBounds | src/battery.js:42-60 | a discharge of a nonnegative amount keeps both bounds, since it lowers the charge and keeps the average price |
| Battery.AverageWithin | src/battery.js:62-65 | a non-empty battery whose cost lies between `lo` and `hi` per kWh has its average price between them |
| Battery.ChargeAndCostVanishTogether | src/battery.js:53-56 | with a positive lower price bound, zero charge and zero cost imply each other |
| Battery.FreeEnergyCarriesNoCost | src/battery.js:36-37 | without such a bound the converse fails: 1 kWh charged at price 0 into an empty battery leaves a consistent battery holding energy at no cost |
| House.InitialMeter | src/house.js:2-11 | the new house has an empty usage history, zero monthly totals and no month recorded |
| House.HouseManager.constructor | src/house.js:2-11 | the object starts in the `InitialMeter()` snapshot |
| House.Multiplier | src/house.js:26-34 | the profile entry for hours 0 to 23 and the 0.5 fallback otherwise, always within [0.35, 2.5] |
| House.HourlyUsage | src/house.js:34-38 | for noise in [0.9, 1.1) the demand is strictly positive, at least 0.4 × 0.35 × 0.9 and below 0.4 × 2.5 × 1.1 |
| House.BatteryDraw | src/house.js:44-45 | the battery supplies min(usage, charge) when it holds any charge, otherwise nothing; for a nonnegative demand the draw lies between 0 and the demand, and it never exceeds a nonnegative charge |
| House.ForMonth | src/house.js:18-22 | the month is recorded; when it changed, both monthly totals restart at 0; otherwise nothing changes; the history is kept |
| House.MonthlyAverageCost | src/house.js:72-74 | 0 before any energy is used this month; otherwise the price that, times the month's energy, gives the month's cost; nonnegative when the cost is |
| House.HouseManager.GetMonthlyAverageCost | src/house.js:72-74 | the same two cases read from the object's fields |
| House.Drawn | src/house.js:44-51 | the battery after the hour's draw; stated by `ConsumeMeetsDemand` |
| House.MarketEnergy | src/house.js:53-57 | the energy the battery could not supply; stated by `ConsumeMeetsDemand` |
| House.HourCost | src/house.js:40-56 | the stored part at the average price plus the rest at the market price; stated by `ConsumeCostsAtPriorAverage` |
| House.Recorded | src/house.js:59-65 | the totals grown by the hour and the hour pushed into the 50-entry history; stated by `ConsumeAccumulates` and `ConsumeKeepsSound` |
| House.ConsumeMeetsDemand | src/house.js:39-57 | the battery draw lies between 0 and the charge; the discharge it needs always succeeds; draw plus market energy equals usage and the market energy is nonnegative; the market is used only once the battery is empty |
| House.ConsumeCostsAtPriorAverage | src/house.js:43-57 | the hour's cost is the cost basis the battery gives up plus the market energy at the market price |
| House.ConsumeAccumulates | src/house.js:13-70 | monthly energy grows by exactly the usage and monthly cost by exactly the hour's cost, from 0 when the month changed; the history gains the hour's record as its newest entry; the battery loses its draw; the returned value is the market energy |
| House.ConsumeKeepsSound | src/house.js:13-70 | at a nonnegative market price, consumption keeps the totals nonnegative, the history within 50 entries and the battery consistent |
| House.Consumed | src/house.js:13-70 | the specification of `consume` on snapshots: the month reset, the hour's usage, the battery draw, the market energy, the hour's cost and the capped push; its properties are stated by `ConsumeMeetsDemand`, `ConsumeCostsAtPriorAverage`, `ConsumeAccumulates` and `ConsumeKeepsSound` |
| House.HouseManager.Consume | src/house.js:13-70 | the method's new house and battery fields and its returned market energy are those of `Consumed` |
| House.HouseManager.DrawFromBattery | src/house.js:43-51 | the battery leg: the draw, the battery after it, and the cost at the average price read before the discharge |
| House.HouseManager.BuyFromMarket | src/house.js:53-57 | the market leg: the energy the battery did not cover, never negative, at the market price |
| House.HouseManager.Record | src/house.js:59-65 | the totals and the capped history after recording the hour |
| Buffer.PushCapped | src/house.js:64-65 | push-then-shift keeps a buffer within its cap; below the cap it appends; at the cap it drops the oldest entry and appends; within the cap it holds the latest `cap` entries; the pushed value is the newest entry |
| Buffer.PushAllKeepsLatest | src/market.js:28-29 | after any number of pushes, a buffer that started within its cap holds exactly the latest `cap` values seen, oldest first, so the oldest is always evicted first |
| Wallet.Debited | src/wallet.js:12-19 | accepted exactly when `amount` does not exceed the balance; a refusal leaves the balance; an accepted debit takes exactly `amount` and leaves the balance nonnegative |
| Wallet.WalletManager.Subtract | src/wallet.js:12-19 | the method's flag and new balance are those of `Debited` |
| Wallet.WalletManager.Add | src/wallet.js:7-10 | the balance grows by exactly `amount` |
| Wallet.WalletManager.constructor | src/wallet.js:2-5 | the balance starts at the given amount (1,000 by default) |
| Wallet.DebitKeepsNonnegative | src/wallet.js:13-17 | no debit, accepted or refused, takes a nonnegative balance below zero |
| Wallet.DebitScenario | src/wallet.js:12-19 | with 100, a debit of 150 is refused and leaves 100; a debit of 40 then succeeds and leaves 60 |
| Wallet.GoalPercent | src/wallet.js:35-39 | progress lies in [0, 100]; it is 0 at or below 5,000 and 100 at or above 10,000; in between it is the profit as a percentage of 5,000 |
| Wallet.WalletManager.GetGoalPercent | src/wallet.js:35-39 | the object's progress lies in [0, 100] |
| Wallet.GoalPercentMonotone | src/wallet.js:35-39 | more money never shows less progress |
| Market.InitialFeed | src/market.js:3-4 | the market starts with an empty history and a price inside the band |
| Market.MarketSimulator.constructor | src/market.js:2-8 | the object starts in the `InitialFeed()` snapshot |
| Market.NextPrice | src/market.js:22-27 | the new price lies in [0.05, 0.15] whatever the old one; it is old + change when that is in the band, and otherwise the bound it crossed |
| Market.UpdateMovesLittle | src/market.js:26-27 | from a price in the band, a step in [-0.005, 0.005) moves the price by at most 0.005, in the step's direction and by no more than the step |
| Market.UpdateKeepsSound | src/market.js:20-29 | after an update the new price is the newest history entry; the history appends below 100 entries and drops its oldest entry at 100; the price and every stored price stay in the band |
| Market.Updated | src/market.js:20-29 | the specification of `update` on snapshots: the clamped new price, pushed into the history capped at 100; its properties are stated by `UpdateKeepsSound` and `UpdateMovesLittle` |
| Market.MarketSimulator.Update | src/market.js:20-33 | the method's new fields are those of `Updated` |
| Simulation.InitialWorld | src/main.js:31-39 | the simulation starts consistent, with auto-buy off and the current month (January) recorded as last seen |
| Simulation.Simulation.constructor | src/main.js:31-39 | the battery, house, wallet and market are newly allocated objects owned by the simulation, so its methods may change them; the object starts in the `InitialWorld()` snapshot: 5,000 in the wallet, 5 kWh per trade |
| Simulation.PaidForEnergy | src/main.js:67-69 | market energy is paid at the current price when there is any and the wallet can pay; otherwise the balance stays |
| Simulation.Advanced | src/main.js:63-69 | tick steps 1 to 4 on snapshots: aging, the market step, consumption at the new price and the payment; stated by `TickServesDemand` and `AdvanceKeepsSound` |
| Simulation.Paid | src/main.js:72-76 | the salary step: the month is recorded, 200 is added exactly when it changed, and nothing else changes |
| Simulation.AutoBought | src/main.js:79-86 | the auto-buy step on snapshots; every branch is stated by `AutoBuyGuarded`, and soundness by `AutoBuyKeepsSound` |
| Simulation.Ticked | src/main.js:62-87 | one whole tick as the composition of the three steps above; stated by `TickKeepsSound`, `TickServesDemand` and `SalaryOnMonthChange` |
| Simulation.Bought | src/main.js:96-103 | the buy handler on snapshots; stated by `BuyGuarded` and `BuyKeepsSound` |
| Simulation.Sold | src/main.js:105-109 | the sell handler on snapshots; stated by `SellGuarded` and `SellKeepsSound` |
| Simulation.CapacityBought | src/main.js:112-121 | the upgrade handler on snapshots; stated by `UpgradeGuarded` and `UpgradeKeepsSound` |
| Simulation.SoundStorageIsPriced | src/main.js:62-121 | in every sound state the charge fits the nameplate capacity, the average price lies in [0.05, 0.15] and charge and cost reach zero together, because every charge is paid at the market price |
| Simulation.Simulation.Tick | src/main.js:62-87 | the objects' new state is `Ticked`: battery aging, market step, consumption, payment, salary and auto-buy, in that order |
| Simulation.Simulation.Advance | src/main.js:63-69 | the first four steps of the tick, as `Advanced` |
| Simulation.Simulation.PayForEnergy | src/main.js:67-69 | the wallet after the payment, as `PaidForEnergy` |
| Simulation.Simulation.PaySalary | src/main.js:72-76 | the salary step, as `Paid` |
| Simulation.Simulation.AutoBuy | src/main.js:79-86 | the auto-buy step, as `AutoBought` |
| Simulation.TickServesDemand | src/main.js:63-69 | in a tick the battery's share and the market energy add up to the hour's demand; the price is the market's new, clamped price; the wallet pays the market energy at that price when it can |
| Simulation.SalaryOnMonthChange | src/main.js:72-76 | 200 is credited exactly when the month differs from the last month seen, which then becomes the new month; the first tick in the starting month pays nothing |
| Simulation.AutoBuyGuarded | src/main.js:79-86 | nothing happens unless auto-buy is on and the price is at or below the threshold, nor when the wallet is short; otherwise the price is paid and one kWh is charged at that price; a full battery keeps the money debited and stays unchanged |
| Simulation.TickKeepsSound | src/main.js:62-87 | with noise in its band, a tick keeps the battery consistent, within its nameplate capacity and with its average price in the market band; it keeps the house's totals and history sound, the price and its history in the band, and the wallet nonnegative |
| Simulation.AdvanceKeepsSound | src/main.js:63-69 | the first four steps keep the simulation sound |
| Simulation.AutoBuyKeepsSound | src/main.js:79-86 | the auto-buy step keeps the simulation sound |
| Simulation.Step | src/main.js:53-124 | one event on snapshots: a tick, the buy, sell or upgrade handler, the auto-buy toggle or a trade-amount selection; stated by `StepKeepsSound` |
| Simulation.StepKeepsSound | src/main.js:53-124 | every event, a tick with its noise in [0.9, 1.1) or any of the player's actions, keeps the simulation sound |
| Simulation.Run | src/main.js:53-124 | a session of events applied in order; stated by `RunKeepsSound` |
| Simulation.RunKeepsSound | src/main.js:53-124 | every session from a sound state, in particular from the start, stays sound, whatever the interleaving of ticks and the player's actions |
| Simulation.ReachableStorageIsPriced | src/main.js:53-124 | after any session from the start the charge fits the nameplate capacity, the average price lies in [0.05, 0.15] and charge and cost reach zero together |
| Simulation.BuyGuarded | src/main.js:96-103 | with too little money nothing changes; otherwise `tradeAmount` × price is paid and a charge of `tradeAmount` at that price is tried |
| Simulation.Simulation.Buy | src/main.js:96-103 | the objects' new state is `Bought` |
| Simulation.BuyKeepsSound | src/main.js:96-103 | buying keeps the simulation sound |
| Simulation.SellGuarded | src/main.js:105-109 | `tradeAmount` × price is credited exactly when the battery can deliver `tradeAmount`, which it then loses; otherwise nothing changes |
| Simulation.Simulation.Sell | src/main.js:105-109 | the objects' new state is `Sold` |
| Simulation.SellKeepsSound | src/main.js:105-109 | selling keeps the simulation sound |
| Simulation.UpgradeGuarded | src/main.js:112-121 | 50 kWh of capacity are added exactly when the wallet can pay 50 × 336.87, which it then does; the stored energy and its cost do not change; otherwise nothing changes |
| Simulation.Simulation.UpgradeCapacity | src/main.js:112-121 | the objects' new state is `CapacityBought` |
| Simulation.UpgradeKeepsSound | src/main.js:112-121 | upgrading keeps the simulation sound |
| Simulation.Simulation.ToggleAutoBuy | src/main.js:123-124 | the toggle flips auto-buy and changes nothing else |
| Simulation.Simulation.SelectTradeAmount | src/main.js:53 | the selected amount becomes the trade amount and nothing else changes |

## Left out

- The clock (src/time.js). It wraps JavaScript `Date` calendar arithmetic. Each tick takes the hour and month after the advance as inputs.
- `Math.random`. The house's noise factor and the market's price step are parameters; lemmas that need them assume the bands the source draws from.
- Presentation: every `updateUI` and `render` method, canvas and DOM access, number formatting, `resize`/`setupCanvas`, the console messages, and the slider's display update (src/main.js:89-93). None of them changes the simulation state.
- `parseFloat` of the threshold and `parseInt` of the trade amount. The parsed values are parameters; a non-numeric input is not modelled.
- `HouseManager.history` (src/house.js:5). It is declared but never written.
- The hourly price table. The market code never reads it, and the argument passed to `update` is ignored.
- The Phaser game configuration, src/scenes/GameScene.js, vite.config.js and the offline data generators (generate_smp.py, generate_smp.js, generate_household_data.py).
- Floating-point rounding. All quantities are exact reals, which makes the snap-to-zero branch of `discharge` fire only when the battery is drained exactly.
- The timer (`setInterval` every two seconds). `Simulation.Run` stands for a session of timer ticks and player actions in any order, and properties of sessions are stated over it.
