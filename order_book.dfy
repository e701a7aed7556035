/**
 * The order book of one market outcome (pkg/markets/liquidity/order_book.go):
 * two priority-ordered sides of price levels, and the walk a taker makes over
 * one side when closing a position, consuming levels from the front.
 *
 * The book owns its levels exclusively, so a level is a value and each side
 * a sequence the book reassigns. The recursive function `Take` is the
 * value-level specification the imperative `TakeBest` is proved against.
 * Prices, amounts, shares and proceeds are `real`.
 */
module Liquidity {

  /** The price bounds of one outcome; the only part of the market the book reads. */
  datatype MarketData = MarketData(minPrice: real, maxPrice: real)

  /** One price level: a price and the amount resting at it. */
  datatype Level = Level(price: real, amount: real)

  /** What a take yields: the levels still resting afterwards, and the taker's proceeds. */
  datatype Fill = Fill(rest: seq<Level>, proceeds: real)

  /**
   * The proceeds per share of a level at `price`: taking asks (closing a
   * short) yields the distance of the price to the upper bound, taking bids
   * (closing a long) its distance to the lower bound.
   */
  function NormalizeComplementPrice(price: real, market: MarketData, closingShort: bool): (r: real)
    ensures market.minPrice <= price <= market.maxPrice ==> 0.0 <= r <= market.maxPrice - market.minPrice
  {
    if closingShort then market.maxPrice - price else price - market.minPrice
  }

  /** What filling `amount` shares at per-share proceeds `price` yields. */
  function FillValue(amount: real, price: real): real
  {
    amount * price
  }

  /**
   * The take of `shares` from the front of `levels`. While shares remain and
   * levels remain: a front level holding more than the remaining shares fills
   * them at its normalized price and stays in front, reduced by them unless
   * this is a dry run; any other front level is consumed whole and dropped.
   */
  function Take(levels: seq<Level>, shares: real, market: MarketData, closingShort: bool, dryRun: bool): (r: Fill)
    ensures |r.rest| <= |levels|
    decreases |levels|
  {
    if shares <= 0.0 || levels == [] then Fill(levels, 0.0)
    else
      var front := levels[0];
      var price := NormalizeComplementPrice(front.price, market, closingShort);
      if front.amount > shares then
        Fill(if dryRun then levels else [front.(amount := front.amount - shares)] + levels[1..], FillValue(shares, price))
      else
        var r := Take(levels[1..], shares - front.amount, market, closingShort, dryRun);
        Fill(r.rest, FillValue(front.amount, price) + r.proceeds)
  }

  /**
   * `rest` is what is left of `levels` once a number of front levels are
   * dropped: a suffix of `levels`, except that its first amount may be lower.
   */
  ghost predicate IsTrimmedSuffix(levels: seq<Level>, rest: seq<Level>)
  {
    |rest| <= |levels| &&
    (rest != [] ==>
       rest[0].price == levels[|levels| - |rest|].price &&
       rest[0].amount <= levels[|levels| - |rest|].amount &&
       rest[1..] == levels[|levels| - |rest| + 1..])
  }

  /**
   * A take never reorders or inserts levels: what it leaves is the input with
   * a number of front levels dropped and at most the new front's amount
   * lowered, never raised; in a dry run it is exactly a suffix of the input.
   */
  lemma {:induction false} TakeTrimsFront(levels: seq<Level>, shares: real, market: MarketData, closingShort: bool, dryRun: bool)
    ensures var r := Take(levels, shares, market, closingShort, dryRun);
      IsTrimmedSuffix(levels, r.rest) && (dryRun ==> r.rest == levels[|levels| - |r.rest|..])
    decreases |levels|
  {
    if shares <= 0.0 || levels == [] {
    } else if levels[0].amount > shares {
      if !dryRun {
        var rest := [levels[0].(amount := levels[0].amount - shares)] + levels[1..];
        assert rest[1..] == levels[1..];
      }
    } else {
      var tail := levels[1..];
      TakeTrimsFront(tail, shares - levels[0].amount, market, closingShort, dryRun);
      var r := Take(tail, shares - levels[0].amount, market, closingShort, dryRun).rest;
      assert tail[|tail| - |r|..] == levels[|levels| - |r|..];
      if r != [] {
        assert tail[|tail| - |r|] == levels[|levels| - |r|];
        assert tail[|tail| - |r| + 1..] == levels[|levels| - |r| + 1..];
      }
    }
  }

  /**
   * A front level holding more than the remaining shares fills all of them at
   * its normalized price and stays first, reduced by them outside a dry run;
   * the levels behind it are untouched.
   */
  lemma PartialFill(levels: seq<Level>, shares: real, market: MarketData, closingShort: bool, dryRun: bool)
    requires shares > 0.0 && levels != [] && levels[0].amount > shares
    ensures var r := Take(levels, shares, market, closingShort, dryRun);
      var price := NormalizeComplementPrice(levels[0].price, market, closingShort);
      r.proceeds == FillValue(shares, price) &&
      r.rest == if dryRun then levels else [levels[0].(amount := levels[0].amount - shares)] + levels[1..]
  {
  }

  /**
   * A front level holding at most the remaining shares is consumed whole at
   * its normalized price and dropped; the take goes on with what remains.
   */
  lemma FullConsumption(levels: seq<Level>, shares: real, market: MarketData, closingShort: bool, dryRun: bool)
    requires shares > 0.0 && levels != [] && levels[0].amount <= shares
    ensures var r := Take(levels, shares, market, closingShort, dryRun);
      var amount := levels[0].amount;
      var price := NormalizeComplementPrice(levels[0].price, market, closingShort);
      var t := Take(levels[1..], shares - amount, market, closingShort, dryRun);
      r.proceeds == FillValue(amount, price) + t.proceeds && r.rest == t.rest
  {
  }

  /**
   * A dry run yields the proceeds of the real take on the same levels, and
   * stops at the same level.
   */
  lemma {:induction false} DryRunProceeds(levels: seq<Level>, shares: real, market: MarketData, closingShort: bool)
    ensures var dry := Take(levels, shares, market, closingShort, true);
      var taken := Take(levels, shares, market, closingShort, false);
      dry.proceeds == taken.proceeds && |dry.rest| == |taken.rest|
    decreases |levels|
  {
    if shares > 0.0 && levels != [] && levels[0].amount <= shares {
      DryRunProceeds(levels[1..], shares - levels[0].amount, market, closingShort);
    }
  }

  /** A copy of `src` built level by level, as the book does on construction. */
  method CopyLevels(src: seq<Level>) returns (dst: seq<Level>)
    ensures dst == src
  {
    dst := [];
    for i := 0 to |src|
      invariant dst == src[..i]
    {
      dst := dst + [Level(src[i].price, src[i].amount)];
    }
  }

  class OutcomeOrderBook {
    /** Bid levels, best (highest) first. */
    var bids: seq<Level>
    /** Ask levels, best (lowest) first. */
    var asks: seq<Level>

    /** A book holding copies of the given levels. */
    constructor (bids: seq<Level>, asks: seq<Level>)
      ensures this.bids == bids && this.asks == asks
    {
      var bidsCopy := CopyLevels(bids);
      var asksCopy := CopyLevels(asks);
      this.bids := bidsCopy;
      this.asks := asksCopy;
    }

    /** A new book, distinct from this one, holding copies of its levels. */
    method DeepClone() returns (c: OutcomeOrderBook)
      ensures fresh(c)
      ensures c.bids == bids && c.asks == asks
    {
      c := new OutcomeOrderBook(bids, asks);
    }

    /**
     * Sells `shares` into the bids; the bids left over replace the side
     * unless this is a dry run, which leaves the book as it was.
     */
    method CloseLongFillOnly(shares: real, market: MarketData, dryRun: bool) returns (proceeds: real)
      modifies this
      ensures asks == old(asks)
      ensures proceeds == Take(old(bids), shares, market, false, false).proceeds
      ensures bids == if dryRun then old(bids) else Take(old(bids), shares, market, false, false).rest
    {
      var rest;
      rest, proceeds := TakeBest(bids, shares, market, dryRun, false);
      DryRunProceeds(bids, shares, market, false);
      if !dryRun {
        bids := rest;
      }
    }

    /**
     * Buys `shares` from the asks; the asks left over replace the side
     * unless this is a dry run, which leaves the book as it was.
     */
    method CloseShortFillOnly(shares: real, market: MarketData, dryRun: bool) returns (proceeds: real)
      modifies this
      ensures bids == old(bids)
      ensures proceeds == Take(old(asks), shares, market, true, false).proceeds
      ensures asks == if dryRun then old(asks) else Take(old(asks), shares, market, true, false).rest
    {
      var rest;
      rest, proceeds := TakeBest(asks, shares, market, dryRun, true);
      DryRunProceeds(asks, shares, market, true);
      if !dryRun {
        asks := rest;
      }
    }

    /**
     * Walks `liquidity` from the front, consuming levels until `shares` are
     * filled or the levels run out, and returns what is left and the
     * proceeds. Outside a dry run a partially filled front level comes back
     * reduced by the shares it filled.
     */
    method TakeBest(liquidity: seq<Level>, shares: real, market: MarketData, dryRun: bool, closingShort: bool)
      returns (rest: seq<Level>, proceeds: real)
      ensures Fill(rest, proceeds) == Take(liquidity, shares, market, closingShort, dryRun)
    {
      rest := liquidity;
      proceeds := 0.0;
      var left := shares;
      while left > 0.0
        invariant Take(liquidity, shares, market, closingShort, dryRun).rest
               == Take(rest, left, market, closingShort, dryRun).rest
        invariant Take(liquidity, shares, market, closingShort, dryRun).proceeds
               == proceeds + Take(rest, left, market, closingShort, dryRun).proceeds
        decreases |rest|
      {
        if |rest| < 1 {
          return;
        }
        var price := NormalizeComplementPrice(rest[0].price, market, closingShort);
        if rest[0].amount > left {
          PartialFill(rest, left, market, closingShort, dryRun);
          proceeds := proceeds + FillValue(left, price);
          if !dryRun {
            rest := rest[0 := rest[0].(amount := rest[0].amount - left)];
          }
          left := left - left;
          return;
        }
        var amount := rest[0].amount;
        FullConsumption(rest, left, market, closingShort, dryRun);
        proceeds := proceeds + FillValue(amount, price);
        left := left - amount;
        rest := rest[1..];
      }
    }
  }

  /**
   * Estimating a close with a dry run gives the proceeds of really closing on
   * a deep clone, and neither the estimate nor the clone's mutation changes
   * the original book.
   */
  method DryRunAgreesWithClone(book: OutcomeOrderBook, shares: real, market: MarketData, closingShort: bool)
    returns (estimate: real, realized: real)
    modifies book
    ensures estimate == realized
    ensures book.bids == old(book.bids) && book.asks == old(book.asks)
  {
    if closingShort {
      estimate := book.CloseShortFillOnly(shares, market, true);
      var clone := book.DeepClone();
      realized := clone.CloseShortFillOnly(shares, market, false);
    } else {
      estimate := book.CloseLongFillOnly(shares, market, true);
      var clone := book.DeepClone();
      realized := clone.CloseLongFillOnly(shares, market, false);
    }
  }
}
