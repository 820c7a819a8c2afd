# Car auction fee calculator — Dafny model

This project models the fee calculator of a car-auction marketing site. Given a
hammer price and a "VAT on hammer" toggle, the calculator works out five things:

- the buyer's fee, from a tiered table of 43 bands;
- the three fixed ancillary charges (assured, V5 handling, online access);
- VAT, at 20% on the fees always and on the hammer price when the toggle is on;
- the grand total;
- an advisory warning for prices outside 11–24999.

Money is modelled as exact `real` pounds. Every table entry has two decimal
places, and 20% VAT can produce fractions of a penny, so exact reals are the
simplest faithful choice.

Modules:

- `Tariff` (`tariff.dfy`) holds the band table `Bands` and the fixed charges
  `Fixed`, with the table's ordering invariants. The table is written as four
  consecutive blocks. This lets each block's ordering be proved on its own; the
  rows and their order are those of the source.
- `BandLookup` (`lookup.dfy`) holds the lookup. `FirstMatch` is the recursive
  specification of "first band whose limit is at or above the price".
  `ScanBands` is the `for … of` loop with `break`, proved equal to it.
  `LookupBuyerFee` adds the fallback. `BuyerFee` is the function the lookup
  computes.
- `Calculator` (`calculator.dfy`) holds the calculation. `Calculate` is the
  pure function: either `Invalid`, or a `Breakdown` record of hammer, fee,
  fixed sum, total VAT, total and the warning flag. `PerformCalculation` is the
  same steps written imperatively, calling the loop. `Render` says which
  on-screen figures change.

Behaviour of the code that differs from what the page's wording suggests:

- Above 24999 no band matches. The fallback is guarded by `val <= 24999`, so
  it does not fire, and the fee stays at its initial 0 rather than the plateau
  fee of 1074.17. The model follows the code: `BuyerFee(25000.0) == 0.0`.
- The fallback is dead code. The last band's limit is 24999, so every price up
  to 24999 already matches a band (`ScanFindsBandIffSupported`).
- Fees rise with the price only within the supported range. Above it the fee
  drops to 0 (`FeeDropsAboveRange`).
- On invalid input only the total on screen is reset to 0. The other figures
  and the warning keep whatever they showed before (`Render`).

## Model

| member | source | states |
|---|---|---|
| `Tariff.BandsWellFormed` | assets/js/main.js:8-52 | The table has 43 bands. Its limits are strictly ascending over every pair of bands, and its fees never decrease. Its last band is (24999, 1074.17). |
| `Tariff.FixedSum` | assets/js/main.js:135 | The fixed charges 61.00 + 21.67 + 0.00 add up to 82.67, whatever the price or band. |
| `BandLookup.FirstMatch` | assets/js/main.js:125-131 | A returned index is in range. The price is at or below that band's limit, and above the limit of every earlier band. With no result, the price is above every limit. |
| `BandLookup.ScanBands` | assets/js/main.js:123-131 | The loop sets `found` exactly when some band matches. `fee` is then the fee of the first band whose limit is at or above the price; otherwise it keeps its initial 0. |
| `BandLookup.LookupBuyerFee` | assets/js/main.js:123-133 | The scan followed by the fallback computes `BuyerFee(val)`: the first matching band's fee, else 1074.17 when `val <= 24999`, else 0. |
| `BandLookup.FirstMatchIsInterval` | assets/js/main.js:125-131 | Band `i` is the first match if and only if the price is above band `i-1`'s limit (any price for band 0) and at most band `i`'s limit. |
| `BandLookup.FeeOfInterval` | assets/js/main.js:125-131 | Every price in a band's interval, (previous limit, limit], gets that band's fee. A price equal to a limit belongs to that band. |
| `BandLookup.ScanFindsBandIffSupported` | assets/js/main.js:125-133 | The scan finds a band if and only if the price is at most 24999. |
| `BandLookup.FallbackNeverFires` | assets/js/main.js:133 | Up to 24999 the fee is the matching band's fee, so the fallback never changes it. Above 24999 the fee is 0. |
| `BandLookup.FeeMonotoneInRange` | assets/js/main.js:123-133 | For prices `v1 <= v2 <= 24999`, the fee for `v1` is at most the fee for `v2`. |
| `BandLookup.FeeDropsAboveRange` | assets/js/main.js:123-133 | The fee is 1074.17 at 24999 and 0 at 25000, so monotonicity stops at the range's top. |
| `BandLookup.BoundaryFees` | assets/js/main.js:9-51 | The fee is 45.00 for 0 and for 49, and 74.17 for 50. It is 1074.17 for 20000 and for 24999. |
| `Calculator.Calculate` | assets/js/main.js:109-142 | The outcome is invalid if and only if the price is NaN or negative. Otherwise it echoes the price and sets the warning if and only if the price is below 11 or above 24999. The fee is the looked-up fee and the fixed sum is 82.67. The total is hammer + fee + fixed sum + VAT. |
| `Calculator.PerformCalculation` | assets/js/main.js:105-142 | The step-by-step calculation, using the scan loop, gives the same outcome as `Calculate`. |
| `Calculator.Render` | assets/js/main.js:109-149 | On invalid input only the displayed total changes, to 0, and the warning keeps its visibility. Otherwise every displayed figure and the warning come from the breakdown. |
| `Calculator.TotalClosedForm` | assets/js/main.js:135-142 | A valid price always completes. The total is the price, plus 1.2 × (fee + 82.67), plus 20% of the price when the toggle is on. |
| `Calculator.VatToggleDifference` | assets/js/main.js:138-142 | For a fixed price, turning the toggle on raises both total VAT and the total by exactly 20% of the price. The fee does not change. |
| `Calculator.VatOnFeesAlwaysCharged` | assets/js/main.js:138-140 | Total VAT minus the hammer VAT is 20% of (fee + 82.67), whatever the toggle. |
| `Calculator.InvalidShowsZeroTotal` | assets/js/main.js:109-112 | NaN or a negative price computes nothing. The displayed total becomes 0, and the warning and the fee shown are left as they were. |
| `Calculator.OutOfRangeStillComputes` | assets/js/main.js:115-133 | 10 and 25000 both raise the warning and still produce a full breakdown. The fee is 45.00 for 10 and 0 for 25000. |
| `Calculator.TotalMonotoneInRange` | assets/js/main.js:123-142 | Between 0 and 24999 a higher price never gives a lower total. |

## Left out

- DOM reads and writes are not modelled: `getElementById`, `innerText` and the warning's `style.display`. The displayed figures and the warning are the `Screen` record.
- The missing-input-element guard (assets/js/main.js:106) is DOM glue and is not modelled.
- The click and Enter-key listeners (assets/js/main.js:164-173) are event wiring and are not modelled.
- `parseFloat` is a library call. The input is taken already parsed, as `NaN` or a real number. Infinity, which `parseFloat` can also return, is not representable as a `real`.
- `Intl.NumberFormat` currency formatting and rounding to pence for display are library calls. Figures are exact reals.
- IEEE-754 double arithmetic is not modelled. The model's equalities are exact; in the page they hold only up to floating-point error.
- The mobile menu, GSAP animations, GA4 `gtag` analytics and affiliate-link tracking (assets/js/main.js:63-88, 152-161, 176-231) are UI side effects with no business rules.
