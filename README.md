# ESPP and RSU valuation arithmetic

This project models the calculation core of `lunar`, a tool that values two equity-compensation sales.

- **ESPP lot** (Employee Stock Purchase Plan). Shares are bought at an employer discount and later sold. Module `EsppTypes` gives the discount, the effective cost per share, the profit or loss of the sale, and the capital-gains tax on a profit.
- **RSU sale** (Restricted Stock Unit). Shares are granted at zero cost. Module `RsuTypes` gives the sale's profit or loss, the capital-gains tax, and the income tax on the vested shares.
- **Form builders.** Modules `EsppForm` and `RsuForm` model how the terminal UI builds an order from the raw form values. Each optional group of fields (commission, capital-gains tax, income tax) is written only when its checkbox is on. Otherwise it keeps Go's zero value.

Modelling decisions:

- Go's `float64` fields are Dafny `real` and its `int` fields are `int`. The formulas use `n as real` wherever Go writes `float64(n)`.
- A Go `(float64, error)` result is `GoErrors.Returned<real>`, a value paired with an optional error. This keeps the Go fact that the amount is 0 when the error is set.
- The calculation methods in Go take a pointer receiver but never write through it. Here the orders are immutable datatype values, so "no method modifies the order" holds by construction.
- `buildEsppOrder` and `buildRsuOrder` are methods. Each starts from the zero order and assigns fields one at a time, as the Go code does. Each is specified by a predicate `BuiltFrom(order, formValues)`, and the lemmas about gating and independence are stated over that predicate.
- `buildRsuOrder` writes three fields that the `RsuOrder` struct in `pkg/types/rsu.go` does not have: `IncomeTaxIncurredWhenStockVested`, `NumberOfStocksVested` and `MarketValuePerShare`. So the builder's output is its own record, `RsuForm.RsuFormOrder`, with exactly the eleven fields it assigns. `RsuTypes.RsuOrder` keeps the struct's fields as they are written.

Two RSU calculations are worth stating precisely:

- `RsuTypes.EffectiveIncomeTaxAmount` models `CalculateEffectiveIncomeTaxAmount` (shares sold × market price at vesting × percent / 100). Nothing in the UI or CLI code calls it. The UI shows `CalculateIncomeTaxPerShare` (ui/rsuform.go:454) and the summary's `TotalIncomeTaxIncurred`, produced by `CalculateRsuOrderSummary` (ui/rsuform.go:462). The CLI calls `CalculateIncomeTaxPerShare` and `CalculateTotalIncomeTaxAmount` (cmd/rsu.go:169-172). None of these is modelled.
- `RsuTypes.CapitalGainTaxAmount` taxes whatever profit it is given. The CLI passes it the gain over the vesting market value, computed by `CalculateProfitOrLossForCapitalGain` (cmd/rsu.go:122-126), which is not modelled.

## Model

| member | source | states |
|---|---|---|
| `EsppTypes.DiscountAmount` | pkg/types/espp.go:19-21 | The discount is zero when the cost or the percent is zero, and it is the whole cost at a 100% discount |
| `EsppTypes.EffectiveCostPerShare` | pkg/types/espp.go:23-26 | The effective cost plus the discount is exactly the cost; it equals the cost at 0% and is zero at 100% |
| `EsppTypes.EffectiveCostIsDiscountedPrice` | pkg/types/espp.go:19-26 | The discount is discountPercent/100 × cost, and the effective cost is cost × (1 − discountPercent/100) |
| `EsppTypes.DiscountWithinCost` | pkg/types/espp.go:19-26 | With cost ≥ 0 and a percent in [0, 100], both the discount and the effective cost lie in [0, cost] |
| `EsppTypes.EffectiveTransactionCommission` | pkg/types/espp.go:30-34 | The commission is exactly 0 when its flag is off, and non-negative for a non-negative count and amount; its value with the flag on is stated by `ProfitDeductsCommissionWhenOn` |
| `EsppTypes.ProfitIgnoresCommissionWhenOff` | pkg/types/espp.go:28-36 | With the commission flag off, profit is shares × (selling price − effective cost), the same for every commission amount and transaction count |
| `EsppTypes.ProfitDeductsCommissionWhenOn` | pkg/types/espp.go:28-36 | With the flag on, profit is exactly transactions × commission less than with the flag off |
| `EsppTypes.ProfitStrictlyIncreasingInSellingPrice` | pkg/types/espp.go:28-36 | For at least one share sold, a higher selling price gives a strictly larger profit |
| `EsppTypes.ProfitSignAroundBreakEven` | pkg/types/espp.go:28-36 | `ProfitOrLoss` computes shares × (selling price − effective cost) − commission and has no contract of its own. For at least one share sold, its result is 0 exactly when the selling price is effective cost + commission/shares, and positive exactly above that price |
| `EsppTypes.CapitalGainTaxAmount` | pkg/types/espp.go:38-44 | Errors exactly when profit < 0, and then returns amount 0 with the "profit must be greater than or equal to zero" message; otherwise returns profit × percent / 100 with no error |
| `EsppTypes.CapitalGainTaxBounds` | pkg/types/espp.go:38-44 | On a profit ≥ 0 the tax is ≥ 0 when the percent is ≥ 0, at most the profit when the percent is ≤ 100, and 0 with no error when the profit is 0 |
| `EsppTypes.BreakEvenScenario` | pkg/types/espp_test.go:32-41 | The test order (15% off $100, 1 share, 1 × $5, 24%) has effective cost 85, breaks even at 90, and owes zero tax there |
| `RsuTypes.EffectiveTransactionCommission` | pkg/types/rsu.go:22-26 | The commission is exactly 0 when its flag is off, and non-negative for a non-negative count and amount; its value with the flag on is stated by `ProfitDeductsCommissionWhenOn` |
| `RsuTypes.ProfitSignAroundBreakEven` | pkg/types/rsu.go:21-28 | `ProfitOrLoss` computes shares × selling price − commission and has no contract of its own. For at least one share sold, its result is 0 exactly when the selling price is commission/shares, and positive exactly above that price |
| `RsuTypes.ProfitIgnoresCommissionWhenOff` | pkg/types/rsu.go:21-28 | With the commission flag off, profit is shares × selling price, the same for every commission amount and transaction count |
| `RsuTypes.ProfitDeductsCommissionWhenOn` | pkg/types/rsu.go:21-28 | With the flag on, profit plus transactions × commission is shares × selling price |
| `RsuTypes.ProfitHasZeroCostBasis` | pkg/types/rsu.go:21-28 | Profit does not depend on the vesting market price, the income-tax percent and flag, or the capital-gains percent and flag: no purchase cost is subtracted |
| `RsuTypes.ProfitStrictlyIncreasingInSellingPrice` | pkg/types/rsu.go:21-28 | For at least one share sold, a higher selling price gives a strictly larger profit |
| `RsuTypes.CapitalGainTaxAmount` | pkg/types/rsu.go:30-36 | Errors exactly when profit < 0, and then returns amount 0 with the same message; otherwise returns profit × percent / 100 with no error |
| `CapitalGainTaxAgreement.RsuCapitalGainTaxBounds` | pkg/types/rsu.go:30-36 | Derived from the ESPP bounds through `SameCapitalGainTax`: on a profit ≥ 0 the tax is ≥ 0 when the percent is ≥ 0, at most the profit when the percent is ≤ 100, and 0 with no error when the profit is 0 |
| `CapitalGainTaxAgreement.SameCapitalGainTax` | pkg/types/rsu.go:30-36 | Given equal percents, the ESPP and RSU capital-gains taxes agree on every profit, error included |
| `RsuTypes.IncomeTaxLinearInSharesSold` | pkg/types/rsu.go:38-40 | The income tax on a + b shares is the tax on a shares plus the tax on b shares |
| `RsuTypes.EffectiveIncomeTaxAmount` | pkg/types/rsu.go:38-40 | Computes shares × market price at vesting × percent / 100; non-negative shares, market price and percent give a non-negative income tax |
| `RsuTypes.IncomeTaxAtMostVestedValue` | pkg/types/rsu.go:38-40 | With non-negative shares and price and a percent ≤ 100, the income tax is at most shares × market price |
| `RsuTypes.IncomeTaxIgnoresToggle` | pkg/types/rsu.go:38-40 | The income tax is the same whatever `considerIncomeTaxOnVestedStock` holds |
| `RsuTypes.SaleScenario` | pkg/types/rsu_test.go:32-39 | The test sale (1 share at $200, 1 × $5 commission) nets 195. The gain 79.66 is supplied as a literal, not computed by any modelled function, and 24% of it is 19.1184 with no error |
| `EsppForm.BuildEsppOrder` | ui/esppform.go:306-333 | Price, discount, selling price and quantity are always copied. With commission on, the flag is true and both commission fields are the inputs; with it off, the flag is false and both fields are 0. The capital-gains flag and percent follow the same rule |
| `EsppForm.BuiltOrderIsUnique` | ui/esppform.go:315-331 | The form values fix every field of the built order: no other field is set |
| `EsppForm.CommissionArgumentsIgnoredWhenOff` | ui/esppform.go:322-326 | With commission off, any commission arguments give the same order and therefore the same profit or loss |
| `EsppForm.CommissionToggleIsolated` | ui/esppform.go:322-326 | Flipping the commission checkbox changes only the three commission fields |
| `EsppForm.CapitalGainTaxToggleIsolated` | ui/esppform.go:328-331 | Flipping the capital-gains checkbox changes only the capital-gains flag and percent |
| `EsppForm.BreakEvenScenarioThroughForm` | ui/esppform.go:306-333 | The test order entered through the form breaks even at 90 with zero tax |
| `RsuForm.BuildRsuOrder` | ui/rsuform.go:352-386 | Selling price, quantity and market value per share are always copied. The commission, capital-gains and income-tax groups are copied, with their flag true, only when their checkbox is on; otherwise they are false/0 |
| `RsuForm.BuiltOrderIsUnique` | ui/rsuform.go:363-384 | The form values fix every field of the built order: no other field is set |
| `RsuForm.AllTogglesOffLeavesZeroes` | ui/rsuform.go:363-384 | With every checkbox off, the order is zero except for selling price, quantity and market value per share |
| `RsuForm.CommissionToggleIsolated` | ui/rsuform.go:368-372 | Flipping the commission checkbox changes only the three commission fields |
| `RsuForm.CapitalGainTaxToggleIsolated` | ui/rsuform.go:374-377 | Flipping the capital-gains checkbox changes only the capital-gains flag and percent |
| `RsuForm.IncomeTaxToggleIsolated` | ui/rsuform.go:379-384 | Flipping the income-tax checkbox changes only the income-tax flag, the tax incurred and the stocks vested; the market value stays as entered |

## Left out

- The target-price solver, the order summaries, `Clone`, `ToString`, `CalculateIncomeTaxPerShare`, `CalculateTotalIncomeTaxAmount`, `CalculateProfitOrLossForCapitalGain` and `CalculateEffectiveProfitOrLoss`: they are not part of this model. They are called from the UI, the CLI and the tests, but their definitions are not among the modelled files.
- The interactive CLI flows in `cmd/espp.go`, `cmd/rsu.go` and `cmd/utils.go`: these are stdin prompt loops that end in `os.Exit`.
- The terminal UI in `ui/esppform.go`, `ui/rsuform.go` and `ui/form.go`: widgets, event handlers, tables and the global current-view state. For those two files, only `buildEsppOrder` and `buildRsuOrder` are modelled.
- The input acceptance filters in `ui/form.go`: these are thin wrappers over Go's number parsing.
- Logging in `pkg/utils/logging.go`, Cobra command wiring, and the `OrderType` enumeration: none of them computes anything.
- IEEE-754 rounding, NaN and infinities: money is modelled as exact reals. A NaN profit would pass Go's `profit < 0` guard, and the model cannot express that.
- 64-bit integer bounds: share and transaction counts are unbounded integers. Go's conversion `float64(n)` is exact only up to 2^53.
- Pointers: each builder in Go returns a pointer to a fresh struct. The model returns the value; no caller can alias it.
