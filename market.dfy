/** The electricity market (`MarketSimulator`): a price that takes a small
    random step every hour, clamped to a fixed band, with a history of the
    last 100 prices. The random step is supplied as a parameter. */
module Market {
  import opened Numeric
  import opened Buffer

  const MinPrice: real := 0.05
  const MaxPrice: real := 0.15
  const InitialPrice: real := 0.10
  const HistoryCap: nat := 100
  /** The random step is `(random - 0.5) * 0.01` for `random` in [0, 1). */
  const MaxChange: real := 0.005

  /** A snapshot of the market's fields. */
  datatype Feed = Feed(currentPrice: real, history: seq<real>)

  predicate InBand(price: real) {
    MinPrice <= price <= MaxPrice
  }

  predicate InChangeBand(change: real) {
    -MaxChange <= change < MaxChange
  }

  /** The market as constructed: no history yet and a starting price inside the band. */
  function InitialFeed(): (f: Feed)
    ensures InBand(f.currentPrice) && f.history == []
  {
    Feed(InitialPrice, [])
  }

  /** The price after a step of `change`, clamped to the band. */
  function NextPrice(price: real, change: real): (p: real)
    ensures InBand(p)
    ensures InBand(price + change) ==> p == price + change
    ensures price + change < MinPrice ==> p == MinPrice
    ensures price + change > MaxPrice ==> p == MaxPrice
  {
    Max(MinPrice, Min(MaxPrice, price + change))
  }

  /** `update()`: a new price, appended to the history. */
  function Updated(f: Feed, change: real): Feed {
    var price := NextPrice(f.currentPrice, change);
    Feed(price, PushCapped(f.history, price, HistoryCap))
  }

  /** The invariant of a market only ever moved by `update`. */
  predicate Sound(f: Feed) {
    && InBand(f.currentPrice)
    && |f.history| <= HistoryCap
    && forall i :: 0 <= i < |f.history| ==> InBand(f.history[i])
  }

  /** Starting inside the band, one update moves the price by at most the
      size of the step. */
  lemma UpdateMovesLittle(f: Feed, change: real)
    requires InBand(f.currentPrice) && InChangeBand(change)
    ensures -MaxChange <= Updated(f, change).currentPrice - f.currentPrice <= MaxChange
    ensures -MaxChange <= change <= 0.0 ==> change <= Updated(f, change).currentPrice - f.currentPrice <= 0.0
    ensures 0.0 <= change ==> 0.0 <= Updated(f, change).currentPrice - f.currentPrice <= change
  {
  }

  /** An update ends with the new price as the newest history entry, drops
      at most the oldest entry, and keeps the market sound whatever the step. */
  lemma UpdateKeepsSound(f: Feed, change: real)
    requires |f.history| <= HistoryCap && forall i :: 0 <= i < |f.history| ==> InBand(f.history[i])
    ensures var g := Updated(f, change);
      && Sound(g)
      && g.history[|g.history| - 1] == g.currentPrice
      && (|f.history| < HistoryCap ==> g.history == f.history + [g.currentPrice])
      && (|f.history| == HistoryCap ==> g.history == f.history[1..] + [g.currentPrice])
  {
    var g := Updated(f, change);
    if |f.history| < HistoryCap {
      assert g.history == f.history + [g.currentPrice];
    } else {
      assert g.history == f.history[1..] + [g.currentPrice];
    }
  }

  class MarketSimulator {
    var currentPrice: real
    var history: seq<real>

    function State(): Feed
      reads this
    {
      Feed(currentPrice, history)
    }

    constructor ()
      ensures State() == InitialFeed()
    {
      history := [];
      currentPrice := InitialPrice;
    }

    /** One hourly step; `change` stands for the random step the source draws. */
    method Update(change: real)
      modifies this
      ensures State() == Updated(old(State()), change)
    {
      currentPrice := Max(MinPrice, Min(MaxPrice, currentPrice + change));
      history := history + [currentPrice];
      if |history| > HistoryCap {
        history := history[1..];
      }
    }
  }
}
