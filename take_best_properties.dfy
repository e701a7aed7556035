/**
 * What a take promises. `TotalAmount` and `TotalProceeds` are reference
 * definitions that do not follow the walk: the liquidity resting on a side
 * and the value of a list of fills at their normalized prices. `Consumed`,
 * the fills a take makes, does follow the walk; `FillsFollowLevels` pins it
 * to the levels (whole front levels in order, then at most part of the next)
 * and `FilledIsLesserOfSharesAndLiquidity` to the shares, and the other
 * lemmas relate the take to these definitions.
 */
module TakeBestProperties {
  import opened Liquidity

  /** The amount resting over all `levels`. */
  function TotalAmount(levels: seq<Level>): real
  {
    if levels == [] then 0.0 else levels[0].amount + TotalAmount(levels[1..])
  }

  /** Each level's amount times its normalized price, summed. */
  function TotalProceeds(levels: seq<Level>, market: MarketData, closingShort: bool): real
  {
    if levels == [] then 0.0
    else FillValue(levels[0].amount, NormalizeComplementPrice(levels[0].price, market, closingShort))
         + TotalProceeds(levels[1..], market, closingShort)
  }

  ghost predicate NonNegativeAmounts(levels: seq<Level>)
  {
    forall i :: 0 <= i < |levels| ==> levels[i].amount >= 0.0
  }

  /**
   * The fills a take of `shares` makes, front first: whole levels, then
   * possibly part of the next one, at that level's price.
   */
  function Consumed(levels: seq<Level>, shares: real): (c: seq<Level>)
    ensures |c| <= |levels|
    decreases |levels|
  {
    if shares <= 0.0 || levels == [] then []
    else if levels[0].amount > shares then [levels[0].(amount := shares)]
    else [levels[0]] + Consumed(levels[1..], shares - levels[0].amount)
  }

  /** The proceeds of a take, dry or not, are the value of its fills. */
  lemma {:induction false} ProceedsAreValueOfFills(levels: seq<Level>, shares: real, market: MarketData,
                                                   closingShort: bool, dryRun: bool)
    ensures Take(levels, shares, market, closingShort, dryRun).proceeds
         == TotalProceeds(Consumed(levels, shares), market, closingShort)
    decreases |levels|
  {
    if shares > 0.0 && levels != [] && levels[0].amount <= shares {
      ProceedsAreValueOfFills(levels[1..], shares - levels[0].amount, market, closingShort, dryRun);
    }
  }

  /**
   * The fills follow the levels in order: all but the last are whole levels
   * from the front, and the last is at the price of the level it came from
   * and takes no more than that level holds.
   */
  lemma {:induction false} FillsFollowLevels(levels: seq<Level>, shares: real)
    ensures var c := Consumed(levels, shares);
      c != [] ==> c[..|c| - 1] == levels[..|c| - 1] &&
                  c[|c| - 1].price == levels[|c| - 1].price && c[|c| - 1].amount <= levels[|c| - 1].amount
    decreases |levels|
  {
    if shares <= 0.0 || levels == [] {
    } else if levels[0].amount > shares {
      assert Consumed(levels, shares) == [levels[0].(amount := shares)];
    } else {
      var tail := levels[1..];
      var ct := Consumed(tail, shares - levels[0].amount);
      FillsFollowLevels(tail, shares - levels[0].amount);
      var c := Consumed(levels, shares);
      assert c == [levels[0]] + ct;
      if ct != [] {
        assert c[|c| - 1] == ct[|ct| - 1] && levels[|c| - 1] == tail[|ct| - 1];
        assert c[..|c| - 1] == [levels[0]] + ct[..|ct| - 1];
        assert levels[..|c| - 1] == [levels[0]] + tail[..|ct| - 1];
      }
    }
  }

  /**
   * A take drops one level per whole fill, and keeps the level it fills
   * part of: what it fills and what it leaves together number the levels,
   * or one more.
   */
  lemma {:induction false} FillsAndRestCoverLevels(levels: seq<Level>, shares: real, market: MarketData,
                                                   closingShort: bool, dryRun: bool)
    ensures |levels| <= |Consumed(levels, shares)| + |Take(levels, shares, market, closingShort, dryRun).rest| <= |levels| + 1
    decreases |levels|
  {
    if shares > 0.0 && levels != [] && levels[0].amount <= shares {
      FillsAndRestCoverLevels(levels[1..], shares - levels[0].amount, market, closingShort, dryRun);
    }
  }

  /** The amount of a level in front of a sequence adds to the total of the rest. */
  lemma TotalAmountCons(front: Level, levels: seq<Level>)
    ensures TotalAmount([front] + levels) == front.amount + TotalAmount(levels)
  {
    assert ([front] + levels)[1..] == levels;
  }

  /**
   * Outside a dry run, the level a take leaves in front has lost exactly the
   * shares that the dropped levels in front of it did not fill: nothing when
   * the take stopped on a level boundary, the rest of the order otherwise.
   */
  lemma {:induction false} FrontReducedByUnfilledShares(levels: seq<Level>, shares: real, market: MarketData,
                                                        closingShort: bool)
    requires shares >= 0.0
    ensures var rest := Take(levels, shares, market, closingShort, false).rest;
      var k := |levels| - |rest|;
      rest != [] ==> rest[0].amount == levels[k].amount - (shares - TotalAmount(levels[..k]))
    decreases |levels|
  {
    if shares > 0.0 && levels != [] && levels[0].amount <= shares {
      var tail := levels[1..];
      var rest := Take(tail, shares - levels[0].amount, market, closingShort, false).rest;
      FrontReducedByUnfilledShares(tail, shares - levels[0].amount, market, closingShort);
      if rest != [] {
        var k := |levels| - |rest|;
        assert levels[..k] == [levels[0]] + tail[..k - 1];
        TotalAmountCons(levels[0], tail[..k - 1]);
      }
    } else {
      assert levels[..0] == [];
    }
  }

  /**
   * Outside a dry run no liquidity is created or lost: what the fills took
   * and what is left add up to what rested before, in amount and in value.
   */
  lemma {:induction false} TakeConservesLiquidity(levels: seq<Level>, shares: real, market: MarketData, closingShort: bool)
    ensures var rest := Take(levels, shares, market, closingShort, false).rest;
      var c := Consumed(levels, shares);
      TotalAmount(c) + TotalAmount(rest) == TotalAmount(levels) &&
      TotalProceeds(c, market, closingShort) + TotalProceeds(rest, market, closingShort)
        == TotalProceeds(levels, market, closingShort)
    decreases |levels|
  {
    if shares > 0.0 && levels != [] {
      var front, tail := levels[0], levels[1..];
      var price := NormalizeComplementPrice(front.price, market, closingShort);
      var c := Consumed(levels, shares);
      if front.amount > shares {
        var left := front.(amount := front.amount - shares);
        var rest := [left] + tail;
        assert Take(levels, shares, market, closingShort, false).rest == rest;
        assert c == [front.(amount := shares)];
        assert TotalAmount(rest) == front.amount - shares + TotalAmount(tail);
        assert TotalProceeds(c, market, closingShort) == FillValue(shares, price);
        assert TotalProceeds(rest, market, closingShort)
            == FillValue(front.amount - shares, price) + TotalProceeds(tail, market, closingShort);
        assert FillValue(front.amount - shares, price) + FillValue(shares, price) == FillValue(front.amount, price);
      } else {
        var rest := Take(tail, shares - front.amount, market, closingShort, false).rest;
        var ct := Consumed(tail, shares - front.amount);
        TakeConservesLiquidity(tail, shares - front.amount, market, closingShort);
        assert c == [front] + ct;
        assert TotalAmount(c) == front.amount + TotalAmount(ct);
        assert TotalProceeds(c, market, closingShort) == FillValue(front.amount, price) + TotalProceeds(ct, market, closingShort);
        assert TotalProceeds(levels, market, closingShort) == FillValue(front.amount, price) + TotalProceeds(tail, market, closingShort);
      }
    }
  }

  lemma {:induction false} TotalAmountNonNegative(levels: seq<Level>)
    requires NonNegativeAmounts(levels)
    ensures TotalAmount(levels) >= 0.0
    decreases |levels|
  {
    if levels != [] {
      TotalAmountNonNegative(levels[1..]);
    }
  }

  /**
   * With no negative amounts, a take fills the requested shares when the
   * side holds enough and all the side holds otherwise; it never fills more
   * than was requested.
   */
  lemma {:induction false} FilledIsLesserOfSharesAndLiquidity(levels: seq<Level>, shares: real)
    requires NonNegativeAmounts(levels) && shares >= 0.0
    ensures TotalAmount(Consumed(levels, shares))
         == if shares <= TotalAmount(levels) then shares else TotalAmount(levels)
    ensures TotalAmount(Consumed(levels, shares)) <= shares
    decreases |levels|
  {
    if levels != [] {
      TotalAmountNonNegative(levels[1..]);
      if shares > 0.0 && levels[0].amount <= shares {
        FilledIsLesserOfSharesAndLiquidity(levels[1..], shares - levels[0].amount);
      }
    }
  }

  /**
   * Levels are left over only when the order was filled: a take that leaves
   * any level has filled exactly the (non-negative) requested shares.
   */
  lemma {:induction false} LeftoverOnlyWhenFilled(levels: seq<Level>, shares: real, market: MarketData,
                                                  closingShort: bool, dryRun: bool)
    requires shares >= 0.0
    requires Take(levels, shares, market, closingShort, dryRun).rest != []
    ensures TotalAmount(Consumed(levels, shares)) == shares
    decreases |levels|
  {
    if shares > 0.0 && levels != [] && levels[0].amount <= shares {
      LeftoverOnlyWhenFilled(levels[1..], shares - levels[0].amount, market, closingShort, dryRun);
    }
  }

  /**
   * Asking for more than the side holds consumes every level, without error:
   * nothing is left and the proceeds are the value of the whole side.
   */
  lemma {:induction false} Exhaustion(levels: seq<Level>, shares: real, market: MarketData,
                                      closingShort: bool, dryRun: bool)
    requires NonNegativeAmounts(levels) && shares > TotalAmount(levels)
    ensures Take(levels, shares, market, closingShort, dryRun) == Fill([], TotalProceeds(levels, market, closingShort))
    decreases |levels|
  {
    if levels != [] {
      TotalAmountNonNegative(levels);
      TotalAmountNonNegative(levels[1..]);
      Exhaustion(levels[1..], shares - levels[0].amount, market, closingShort, dryRun);
    }
  }

  /** A take of no shares, or of a negative number, takes nothing and changes nothing. */
  lemma NonPositiveSharesTakeNothing(levels: seq<Level>, shares: real, market: MarketData,
                                     closingShort: bool, dryRun: bool)
    requires shares <= 0.0
    ensures Take(levels, shares, market, closingShort, dryRun) == Fill(levels, 0.0)
    ensures Consumed(levels, shares) == []
  {
  }

  /**
   * A front level holding exactly the remaining shares is dropped, not kept
   * with amount 0, and the take stops behind it; a dry run, which leaves the
   * amounts alone, stops behind it too.
   */
  lemma ExactFillDropsLevel(levels: seq<Level>, market: MarketData, closingShort: bool, dryRun: bool)
    requires levels != [] && levels[0].amount > 0.0
    ensures Take(levels, levels[0].amount, market, closingShort, dryRun)
         == Fill(levels[1..], FillValue(levels[0].amount, NormalizeComplementPrice(levels[0].price, market, closingShort)))
  {
  }

  /** An empty front level adds nothing and is skipped. */
  lemma ZeroFrontLevelSkipped(levels: seq<Level>, shares: real, market: MarketData, closingShort: bool, dryRun: bool)
    requires levels != [] && levels[0].amount == 0.0 && shares > 0.0
    ensures Take(levels, shares, market, closingShort, dryRun) == Take(levels[1..], shares, market, closingShort, dryRun)
  {
  }

  /** The per-share proceeds of the two sides at one price add up to the width of the price range. */
  lemma ComplementsSpanRange(price: real, market: MarketData)
    ensures NormalizeComplementPrice(price, market, true) + NormalizeComplementPrice(price, market, false)
         == market.maxPrice - market.minPrice
  {
  }

  /** Closing a long pays more at a higher bid; closing a short pays more at a lower ask. */
  lemma ComplementMonotone(low: real, high: real, market: MarketData)
    requires low <= high
    ensures NormalizeComplementPrice(low, market, false) <= NormalizeComplementPrice(high, market, false)
    ensures NormalizeComplementPrice(low, market, true) >= NormalizeComplementPrice(high, market, true)
  {
  }

  /**
   * Bids of 10 at 0.60 and 5 at 0.55 in a market bounded by 0 and 1: closing
   * a long of 12 takes the first level whole and 2 from the second, for
   * proceeds of 7.1, and leaves 3 at 0.55.
   */
  lemma ClosingLongExample()
    ensures Take([Level(0.60, 10.0), Level(0.55, 5.0)], 12.0, MarketData(0.0, 1.0), false, false)
         == Fill([Level(0.55, 3.0)], 7.1)
  {
  }
}
