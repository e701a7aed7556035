# Outcome order book: closing a position against resting liquidity

This project models the order book that the market analyzer keeps for each
outcome of a market (`pkg/markets/liquidity/order_book.go`). The book has
two sides. Bids are best (highest) first and asks are best (lowest) first.
Each side is a list of price levels, and each level has a price and an
amount.

A position is closed "fill only": the taker walks one side from the front.
Bids are taken to close a long; asks are taken to close a short. A level
holding more than the remaining shares fills them and stays at the front,
reduced. Any other level is consumed whole and dropped. The walk ends when
the shares are filled or the side runs out. The taker's proceeds per share
at a level are the normalized complement of its price:
- closing a short pays the distance from the price to the market's maximum;
- closing a long pays the distance from the price to the market's minimum.

A dry run computes the same proceeds and leaves the book as it was.

The project has two files:

- `order_book.dfy`, module `Liquidity`, holds the model.
  - A level is a value, and the book is a class whose `bids` and `asks`
    fields are sequences that its methods reassign.
  - `Take` is a recursive value-level specification of one take.
  - The imperative `TakeBest` walks the levels with a loop and is proved
    equal to `Take`.
  - The two close operations are proved to replace only their own side.
  - The constructor and `DeepClone` are proved to copy.
  - A dry run is proved to give the proceeds of a real close on a clone.
- `take_best_properties.dfy`, module `TakeBestProperties`, holds lemmas
  about the take.
  - Two reference definitions do not follow the walk:
    - the total amount on a side;
    - the value of a list of fills at their normalized prices.
  - `Consumed` lists the fills a take makes. It follows the walk, so it is
    no independent reference.
  - Separate lemmas pin `Consumed` down:
    - to the levels: whole front levels in order, then at most part of the next;
    - to the shares: the lesser of the shares and the side's total.

## Model

| member | source | states |
|---|---|---|
| Liquidity.NormalizeComplementPrice | pkg/markets/liquidity/order_book.go:72-78 | for a price within the market's bounds, the per-share proceeds of either side lie between 0 and the width of the price range |
| Liquidity.Take | pkg/markets/liquidity/order_book.go:80-107 | the value-level take the loop is proved against; it never leaves more levels than it was given |
| Liquidity.CopyLevels | pkg/markets/liquidity/order_book.go:13-26 | the level-by-level copy loop yields a sequence equal to its input |
| Liquidity.OutcomeOrderBook.constructor | pkg/markets/liquidity/order_book.go:12-32 | a new book holds exactly the given bids and asks, as copies |
| Liquidity.OutcomeOrderBook.DeepClone | pkg/markets/liquidity/order_book.go:34-53 | the clone is a new object, distinct from the original, with the same bids and asks |
| Liquidity.OutcomeOrderBook.CloseLongFillOnly | pkg/markets/liquidity/order_book.go:55-61 | closing a long takes from the bids at complement-to-minimum prices and returns the real take's proceeds, dry or not; outside a dry run the bids become what the take leaves; in a dry run they stay as they were; the asks never change |
| Liquidity.OutcomeOrderBook.CloseShortFillOnly | pkg/markets/liquidity/order_book.go:63-69 | the same on the asks, at complement-to-maximum prices; the bids never change |
| Liquidity.OutcomeOrderBook.TakeBest | pkg/markets/liquidity/order_book.go:80-107 | the loop returns exactly the levels left and the proceeds of the specified take: partial fill of a larger front level, whole consumption of the others, stopping when shares are filled or levels run out |
| Liquidity.PartialFill | pkg/markets/liquidity/order_book.go:88-95 | a front level holding more than the remaining shares fills all of them at its normalized price; it stays in front, reduced by them unless this is a dry run, with the levels behind untouched |
| Liquidity.FullConsumption | pkg/markets/liquidity/order_book.go:98-104 | a front level holding at most the remaining shares adds its whole amount times its normalized price and is dropped; the take continues on the rest with the shares reduced by its amount |
| Liquidity.TakeTrimsFront | pkg/markets/liquidity/order_book.go:83-106 | what a take leaves is the input with front levels dropped and at most the new front's amount lowered, never raised; a dry run leaves an exact suffix |
| Liquidity.DryRunProceeds | pkg/markets/liquidity/order_book.go:88-104 | the dry run and the real take yield the same proceeds and stop at the same level, since the dry-run flag only guards the writes to amounts |
| Liquidity.DryRunAgreesWithClone | pkg/markets/liquidity/order_book.go:34-69 | estimating a close with a dry run gives the proceeds of a real close on a deep clone, and the original book's bids and asks are unchanged |
| TakeBestProperties.Consumed | pkg/markets/liquidity/order_book.go:83-104 | a take makes at most one fill per level |
| TakeBestProperties.ProceedsAreValueOfFills | pkg/markets/liquidity/order_book.go:89-90 | the proceeds of a take are the sum, over the fills it makes, of amount times normalized price |
| TakeBestProperties.FillsFollowLevels | pkg/markets/liquidity/order_book.go:83-104 | all fills but the last are whole front levels in order; the last is at the price of its level and takes no more than that level holds |
| TakeBestProperties.FillsAndRestCoverLevels | pkg/markets/liquidity/order_book.go:88-104 | the take drops one level per whole fill and keeps a partially filled level: fills and remaining levels number the input levels, or one more |
| TakeBestProperties.FrontReducedByUnfilledShares | pkg/markets/liquidity/order_book.go:88-104 | outside a dry run, the front level left behind has lost exactly the shares that the dropped levels before it did not fill, for any non-negative shares |
| TakeBestProperties.TakeConservesLiquidity | pkg/markets/liquidity/order_book.go:88-104 | outside a dry run the filled amounts plus the amounts left equal the amounts before, and likewise their values at normalized prices |
| TakeBestProperties.FilledIsLesserOfSharesAndLiquidity | pkg/markets/liquidity/order_book.go:83-106 | with non-negative amounts, a take fills the requested shares if the side holds that many, and otherwise all the side holds; it never fills more than requested |
| TakeBestProperties.LeftoverOnlyWhenFilled | pkg/markets/liquidity/order_book.go:88-95 | if a take leaves any level, it filled exactly the requested shares |
| TakeBestProperties.Exhaustion | pkg/markets/liquidity/order_book.go:83-86 | asking for more than the side holds consumes every level without error, leaves nothing, and yields the value of the whole side |
| TakeBestProperties.NonPositiveSharesTakeNothing | pkg/markets/liquidity/order_book.go:83 | zero or negative shares take nothing, yield 0 and leave the levels as they were |
| TakeBestProperties.ExactFillDropsLevel | pkg/markets/liquidity/order_book.go:88-104 | a front level holding exactly the remaining shares is dropped rather than kept with amount 0, in a dry run or not |
| TakeBestProperties.ZeroFrontLevelSkipped | pkg/markets/liquidity/order_book.go:98-104 | an empty front level adds nothing and is skipped |
| TakeBestProperties.ComplementsSpanRange | pkg/markets/liquidity/order_book.go:72-78 | the per-share proceeds of the two sides at one price add up to the width of the market's price range |
| TakeBestProperties.ComplementMonotone | pkg/markets/liquidity/order_book.go:72-78 | closing a long pays more at a higher price; closing a short pays more at a lower one |
| TakeBestProperties.ClosingLongExample | pkg/markets/liquidity/order_book.go:55-107 | bids of 10 at 0.60 and 5 at 0.55 in a market bounded by 0 and 1: closing a long of 12 yields 7.1 and leaves 3 at 0.55 |

## Left out

- Floating point:
  - Prices are `float32`, amounts are `float32`, shares and proceeds are `float64`; all of them are exact `real`s here.
  - The widening of amounts to `float64` and the narrowing of shares to `float32` (line 92) are not modelled.
  - Rounding is not modelled either. The conservation and proceeds lemmas hold of exact arithmetic only.
- Liquidity.OutcomeOrderBook.TakeBest: does not model zeroing the amount of a level it consumes whole outside a dry run (line 102).
  - Levels are values the book owns exclusively, so the zeroed level is the one dropped from the returned slice.
  - Its amount is no longer observable through the book.
  - Pointer aliasing between the caller's slice and the book's side is not modelled.
  - The book reassigns its side to the returned levels, which the model does directly.
- `LiquidityAtPrice`, the protobuf level type, is not modelled; only its price and amount are kept.
- `MarketData`, the market interface, is not modelled; only the two price bounds the book reads are kept.
- `NormalizeComplementPrice` is a module function, because the Go method never reads its receiver.
- Concurrency is not modelled. The book has no locking, and it is modelled as used by one caller at a time.
- Validation is left out because the code has none:
  - negative shares take nothing;
  - negative amounts are taken as they are;
  - levels are not checked to be sorted.
  - Properties that need non-negative amounts require them explicitly.
- The doc comment at line 71 pairs "taking an Ask" with "closing a long". The code takes asks when closing a short and pays the distance to the maximum price there. The model follows the code.

