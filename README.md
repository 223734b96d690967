# Cost calculator: a verified model

`script.js` drives a one-page cost calculator. The user fills in four fields: the medicine cost, the fees, a preparation percentage and a transport-and-packaging percentage. On every edit the page does three things:

- It normalises the fields. Text that does not parse to a finite number counts as 0.
- It derives two surcharges as percentages of the fees, and the total.
- It writes seven output regions by a small sign-based display rule.

A reset button empties the fields and recalculates. A copy button builds a six-line plain-text summary for the clipboard.

The model has four modules:

- `Cost` (`cost.dfy`) covers normalisation and the derivation (`Derive`, `Charge`). `SanitizeNumber` is sanitizeNumber; `Normalize` applies it to each of the four fields, as the first four statements of `calculate` and of `copySummary` do.
  - `parseFloat` is a parameter of type `string -> Option<real>`. `None` stands for NaN and for the infinities.
  - Numbers are mathematical reals.
- `Display` (`display.dfy`) covers the display rule of `calculate` as pure functions over a `Cell` datatype: `Placeholder`, `Currency(amount)` or `Percent(pct)`.
  - the formatted currency amount is the `Currency` constructor
  - the dash is `Placeholder`
  - `` `${pct}%` `` is `Percent`
  - `Render` gives all seven regions, and `CellText` gives a cell's text for a given formatter.
- `Summary` (`summary.dfy`) covers the six lines of `copySummary`, their join with line feeds (`Join`), and splitting text at line feeds (`Lines`).
- `Page` (`calculator.dfy`) is the page state as a class `Calculator`. It has:
  - the four field values, as a `RawInputs` record
  - the seven output regions, as a `Panel` record
  - the copy-status text
  - the methods `Calculate`, `ResetForm` and `CopySummary`

  The constructor models page load, which calls `calculate` once.

The central invariant is `Calculator.Shown()`: the output regions are `Render(Normalize(parseFloat, form))`. `Calculate` establishes it by choosing the seven region values one by one with the source's conditional expressions, collecting them in a local record, and storing that record in a single assignment. `ResetForm` keeps it. Every display property proved about `Render` therefore holds for the page state.

## Model

| member | source | states |
|---|---|---|
| Cost.SanitizeNumber | script.js:25-28 | A finite parse result is returned unchanged and a non-finite one becomes exactly 0. Hence a non-zero result is always a finite parse of the text. |
| Cost.Normalize | script.js:31-34 | No contract of its own: the four sanitizeNumber calls that open calculate (and copySummary, script.js:61-64). Cost.SanitizeNumber states what each call gives; Cost.EmptyFormDerivesZero covers the empty form. |
| Cost.Charge | script.js:36-37 | No contract of its own: a percentage of the fees. Its properties are stated by Cost.ChargeMonotone and Cost.ChargePositive. |
| Cost.Derive | script.js:36-38 | No contract of its own: the two surcharges and the total. Its properties are stated by Cost.DeriveMeaning, Cost.DeriveNonNegative and Cost.WorkedExample. |
| Cost.DeriveMeaning | script.js:36-38 | Each surcharge times 100 equals its percentage times the fees. The total minus both surcharges is medicine plus fees. In closed form, total = medicine + fees·(1 + (prepPct + transPct)/100). |
| Cost.DeriveNonNegative | script.js:36-38 | With non-negative fees and percentages, both surcharges are non-negative and the total is at least medicine plus fees. |
| Cost.ChargeMonotone | script.js:36-37 | For non-negative operands, a surcharge never decreases when the percentage or the fees grow. |
| Cost.ChargePositive | script.js:36-37 | A surcharge is positive exactly when the percentage and the fees are both positive or both negative. |
| Cost.EmptyFormDerivesZero | script.js:25-38 | If parseFloat("") is NaN, four empty fields normalise to all zeros, and zeros derive zero surcharges and a zero total. |
| Cost.WorkedExample | script.js:36-38 | Medicine 500, fees 1000, 10% and 5% give preparation 100, transport 50 and total 1650. |
| Display.AmountCell | script.js:40-41 | The medicine and fees regions show the placeholder exactly when the value is ≤ 0, and otherwise show the value as currency. They never show a negative amount. |
| Display.ChargeCell | script.js:42-43 | A surcharge region shows the amount if it is positive. Otherwise it shows currency 0 when the fees are positive, and otherwise the placeholder. It is the placeholder exactly when both the amount and the fees are ≤ 0. It is never a percent label and never negative. With positive fees it is always currency. |
| Display.PercentCell | script.js:45-46 | A percent region shows the percent label exactly when the rate is positive, and otherwise the placeholder. |
| Display.Render | script.js:40-48 | No contract of its own: the seven regions for normalised inputs. Its properties are stated by Display.RenderPolicy, the two PlaceholderExactly lemmas and Page.CalculateMatchesRender. |
| Display.RenderPolicy | script.js:40-48 | The total region is always the derived total as currency, never the placeholder. None of the medicine, fees, preparation and transport regions shows a negative amount; the total region can (Display.TotalCanBeNegative). Positive fees appear in the fees region and make both surcharge regions show currency. Each percent region shows its rate if and only if the rate is positive. |
| Display.PreparationPlaceholderExactly | script.js:36-42 | The preparation region shows the placeholder if and only if the fees are 0, or the fees are negative and the preparation rate is non-negative. |
| Display.TransportPlaceholderExactly | script.js:37-43 | The same characterisation for the transport region and the transport rate. |
| Display.NegativeFeesShowPreparation | script.js:41-42 | Fees -100 at -10% show the placeholder in the fees region but a positive preparation amount of 10. |
| Display.ZeroInputsPanel | script.js:40-48 | All-zero inputs show the placeholder in six regions and currency 0 in the total region. |
| Display.EmptyFormPanel | script.js:25-48 | If parseFloat("") is NaN, an empty form shows the placeholder in six regions and currency 0 as the total. |
| Display.ZeroRateWithFees | script.js:36-42 | A 0% preparation rate with positive fees shows currency 0, not the placeholder. With zero fees, any positive preparation rate still shows the placeholder. |
| Display.TotalCanBeNegative | script.js:38-48 | A medicine cost of -5 with everything else zero shows currency -5 in the total region, so the total region, unlike the other amount regions, can be negative. |
| Display.WorkedExampleTotal | script.js:48 | The worked example's total region shows currency 1650. |
| Display.CellText | script.js:40-48 | No contract of its own: the text a region shows, from the currency formatter and number-to-string. Used by the Summary...MatchDisplay lemmas to compare regions with summary lines. |
| Summary.Join | script.js:78 | No contract of its own: `lines.join("\n")`. Summary.LinesOfJoin states that splitting undoes it. |
| Summary.Lines | script.js:78 | The source never splits. `Lines` is the reference definition of `text.split("\n")`, used to state the six-line property. Its contract: splitting any text yields at least one line. |
| Summary.LinesOfLine | script.js:78 | A text without a line feed splits into exactly itself. |
| Summary.LinesOfCons | script.js:78 | A line feed after a line without one splits off that line first. |
| Summary.LinesOfJoin | script.js:78 | Splitting at line feeds undoes `join("\n")` for any non-empty list of lines without line feeds. |
| Summary.SummaryLines | script.js:61-76 | No contract of its own: the six lines, computed inline as copySummary does. Summary.SummaryLinesContent states them in terms of Normalize and Derive. |
| Summary.SummaryText | script.js:78 | No contract of its own: the clipboard text. Summary.SummaryHasSixLines states its six-line structure. |
| Summary.SummaryLinesContent | script.js:61-76 | The six summary lines are, in order: the title, "Medicine: " and "Fees: " with the formatted inputs, the two surcharge lines with their rates and formatted amounts, and "Total: " with the formatted total. All amounts are those Derive gives for the normalised fields. |
| Summary.SummaryLinesSingle | script.js:69-76 | With formatters that never emit a line feed, there are six summary lines and none contains a line feed. |
| Summary.SummaryHasSixLines | script.js:69-78 | With such formatters, the clipboard text splits back into exactly the six summary lines. |
| Summary.SummaryTotalMatchesDisplay | script.js:48-75 | The summary's total line carries the same text as the total region. |
| Summary.SummaryAmountsMatchDisplay | script.js:40-72 | The medicine and fees lines carry the region's text when the value is positive. When it is not, the region shows the dash while the summary shows the formatted value. |
| Summary.SummaryChargesMatchDisplay | script.js:42-74 | A positive surcharge appears in its summary line with the same text as in its region. When it is not positive, the summary line still shows the formatted surcharge, possibly negative, while the region shows a formatted zero if the fees are positive and the dash otherwise. |
| Summary.NegativeRateCopiesNegativeCharge | script.js:36-43 | Fees 100 at -5% derive a preparation of -5, while the preparation region shows currency 0. |
| Summary.SummaryRatesMatchDisplay | script.js:45-74 | A positive rate appears in its summary line with the same text as its percent region. |
| Page.Calculator.Shown | script.js:30-49 | No contract of its own: the invariant that the regions are `Render` of the normalised fields. Established by the constructor and Calculate, kept by ResetForm. |
| Page.Calculator.constructor | script.js:136 | After page load the fields and the status keep the text the markup gave them (constructor parameters), and the regions show the display rule for those fields. |
| Page.Calculator.Calculate | script.js:30-49 | After the seven region values are computed and stored, the regions equal `Render` of the normalised fields. Only the regions change. |
| Page.Calculator.ResetForm | script.js:51-58 | The four fields are empty and the status text is cleared. The regions show the display rule for the empty form. If parseFloat("") is NaN, that is the placeholder everywhere except a total of currency 0. |
| Page.Calculator.CopySummary | script.js:60-78 | The text produced is the six summary lines joined with line feeds. With single-line formatters it splits into exactly those six lines. Once the regions are up to date, its last line shows the total region's text. |
| Page.CalculateMatchesRender | script.js:40-48 | The seven conditional expressions of `calculate` are exactly the output of `Render`. |

## Left out

- DOM element lookup, event wiring and the footer year (script.js:4-23, 122-134) are browser glue. The constructor stands for page load, and `Calculate` for every input or change event.
- The clipboard write and the two timed status resets (script.js:79-86) are an asynchronous foreign call and timers. `CopySummary` returns the text and leaves the status untouched.
- QR generation, download and printing (script.js:90-119) cover URL building, window and print calls, with no computation to model.
- `parseFloat`'s grammar is not modelled. `parseFloat` is a parameter, and `parseFloat("")` being NaN is the hypothesis `EmptyIsNaN`.
- `Intl.NumberFormat` currency formatting (script.js:2) is not modelled. Regions use the `Currency` constructor. In summary text it is a parameter `money`.
- JavaScript's number-to-string conversion in the percent labels is not modelled. It is a parameter `number`.
- IEEE-754 arithmetic is not modelled: numbers are reals, so rounding and overflow of products or sums to Infinity or NaN are not captured.
- Summary.SummaryHasSixLines: the six-line result assumes the formatters never produce a line feed (`SingleLine`), because their output is not modelled.
- Page.Calculator.CopySummary: the six-line property carries the same `SingleLine` assumption. The total line matching the total region needs `Shown()`, i.e. that `calculate` has updated the regions since the last edit.
- Page.Calculator.Calculate: the page writes the seven `textContent` properties one after another; the model collects the seven values in a local record and stores it once, so the intermediate states in which only some regions are updated are not modelled.
- The initial text of the fields and of the status line comes from the page markup, which is not part of this model; the constructor takes both as parameters.
- The page keeps each input and output as a separate element property. The class groups them into one record for the fields and one for the regions, so the model does not capture aliasing between elements.
