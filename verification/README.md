# Sales dashboard core, modelled in Dafny

This project models the computational core of a product-sales dashboard.
The dashboard has the following parts:

- The comparison page (`compare.js`) aggregates products into revenue per
  product, per region and per month. It continues the monthly series with
  an ordinary-least-squares line, and names the top product, the total and
  the best region.
- The product form parses comma-separated number lists and percentages
  (`intake.js`).
- The register and login forms validate their fields on the client
  (`auth.js`).
- The product analysis page turns one product's monthly entries into four
  chart columns, or reports that there is no data (`analysis.js`).
- The seed script generates a run of `"YYYY-MM"` month keys and seasonal
  monthly sales (`backend/seed.js`).
- The two Mongoose product models have their schemas and the pre-save hook
  that derives each month's revenue and profit
  (`backend/models/Product.js`, `backend/models/ProductData.js`).
- The Python forecasting service builds sliding-window training pairs and
  rolls a trained model forward (`ml/forecast_api.py`).

Numbers are exact `real`s. A JavaScript value that may be missing is an
`Option`. Randomness (`Math.random`), the clock (`new Date()`), the
JavaScript `Number` grammar and the trained network become parameters.

Modules, one per source concern:

- `Wrappers`, `Sums`, `Records` hold the stored document shapes.
- `StringOrder` holds `sort()` on strings.
- `Tally` models a JavaScript object used as an accumulating map.
- `JsText` models `trim`, `split`, `padStart` and `length`.
- `Calendar` models `Date` month arithmetic and month keys.
- `ProductModels`, `Compare`, `Regression`, `Intake`, `Auth`, `Analysis`,
  `Seed` and `ForecastApi` are one each per source file.

## Model

| member | source | states |
|---|---|---|
| StringOrder.SortStrings | compare.js:53 | `sort()` on distinct keys gives a strictly ascending list with exactly the same keys. |
| Tally.Build | compare.js:36-51 | Accumulating pairs into an object gives distinct keys, exactly the keys of the pairs, listed in the order of their first occurrence. Each key holds the sum of its pairs' values, and the values add up to all the pairs' values. |
| Compare.PrepareData | compare.js:26-57 | One revenue record per product, in input order, with a missing price or unit count read as 0. The region keys are distinct and listed in the order the products first name them. The month keys are strictly ascending, and there is one series value per month. |
| Compare.MonthPairsTotals | compare.js:42-51 | Each month's accumulated total is the revenue of exactly the entries, of any product, carrying that month key. All totals together are the revenue of every entry. |
| Compare.MonthPairsKeys | compare.js:42-51 | A key is in the month map if and only if some entry of some product carries it. |
| Compare.MonthlySeriesContents | compare.js:42-54 | `months` holds each occurring month key once, ascending. Its series value is that month's revenue over all products. |
| Compare.MonthlySeriesConserves | compare.js:42-54 | The monthly series adds up to the revenue of every monthly entry of every product. |
| Compare.MonthsAreDetermined | compare.js:53 | Any strictly ascending list of exactly the occurring month keys is the list `prepareData` returns. |
| Compare.RegionRevenueKeys | compare.js:36-39 | The region map has a key if and only if some product has that region (`undefined` for a missing one). |
| Compare.RegionRevenueTotals | compare.js:36-39 | Each region's total is the revenue of that region's products. The region totals add up to the product revenues. |
| Compare.ForecastChartAligned | compare.js:161-179 | Labels and forecast dataset both have three more points than there are months. The forecast is blank under every month. Under `F+j` it is the least-squares line at that label's position. |
| Compare.FirstMaxUnique | compare.js:204 | At most one position is a maximum with every earlier value strictly smaller, so the product a stable descending sort puts first is determined. |
| Compare.FirstMaxIndex | compare.js:204 | Finds the position a stable sort by descending revenue puts first. |
| Compare.ShowInsights | compare.js:204-216 | The top product exists iff there are products, and it is the first of maximal revenue. The total is the sum of the revenues. The best region exists iff the region map is non-empty, and it is the first region of maximal total. The future line is the three-point forecast. |
| Compare.TotalRevenue | compare.js:207 | The `reduce` accumulates exactly the sum of the product revenues. |
| Regression.RunningSums | compare.js:68-75 | The loop leaves sumX, sumXX, sumY and sumXY equal to the sums over x = 0..n-1 of x, x², y and x·y. |
| Regression.DenominatorClosedForm | compare.js:77 | The slope's divisor equals n²(n²-1)/12, so it is positive from two points on and the division is always defined. |
| Regression.OlsFitSolvesNormalEquations | compare.js:77-78 | The computed slope and intercept solve the least-squares normal equations: the residuals sum to zero and are uncorrelated with x. |
| Regression.NormalEquationsUnique | compare.js:77-78 | With two or more points only one line solves the normal equations, so the computed line is the least-squares line. |
| Regression.PerfectLineIsFitted | compare.js:77-78 | Points lying exactly on a line are fitted by that line. |
| Regression.Forecast | compare.js:64-87 | The result has `count` values. An empty series gives zeros, and a one-point series repeats its value. |
| Regression.ForecastExtendsLeastSquaresLine | compare.js:80-86 | From two points on, the j-th forecast is the least-squares line at x = n-1+j, for whichever line solves the normal equations. |
| Regression.PerfectLineForecast | compare.js:64-87 | A series exactly on a line is continued exactly along it. |
| Regression.ConstantForecast | compare.js:64-87 | A non-empty constant series forecasts that constant. |
| Regression.ForecastOfOneToFour | compare.js:64-87 | 1, 2, 3, 4 is continued with 5, 6, 7. |
| Regression.ExtendLine | compare.js:80-86 | The loop pushes the line's values at n, n+1, …, n-1+count. |
| Regression.RegressionForecast | compare.js:64-87 | The imperative routine computes the forecast value for every series and count. |
| Regression.FitAndExtend | compare.js:68-86 | From two points on, the routine extends the least-squares fit. |
| JsText.Trim | intake.js:18 | The result is empty iff the text has no visible character. Otherwise it is the infix of the text between leading and trailing whitespace, with visible characters at both ends. |
| JsText.SplitPieces | intake.js:16-17 | `split(',')` gives one more piece than there are commas, no piece holds a comma, and joining the pieces gives the text back. |
| JsText.SplitJoin | intake.js:16-17 | Splitting comma-free pieces joined with commas gives the pieces back. |
| Intake.PresentMembers | intake.js:19 | After the NaN filter, a number is in the list iff it was a parsed value. |
| Intake.PresentOfPresent | intake.js:19 | When nothing is NaN, the filter keeps every value in place. |
| Intake.NumbersAppend | intake.js:16-19 | Parsing concatenated pieces gives the numbers of each part, in order. |
| Intake.NumbersMembers | intake.js:16-19 | A value is in the parsed list iff some piece reads as it. |
| Intake.SliceTo | intake.js:23 | `slice(0, end)` keeps a prefix of the array. A non-negative `end` keeps `end` items, or all when there are fewer. A negative `end` drops the last `-end` items, or all when there are fewer. |
| Intake.ParseNumberList | intake.js:10-27 | A missing or empty input gives []. The list never has more values than the input has comma-separated pieces. It is a prefix of the numbers of the pieces: all of them without `expectedLength` (or with 0), the first `expectedLength` for a positive one, and all but the last `-expectedLength` for a negative one. |
| Intake.ParseJoinedList | intake.js:10-27 | Numbers written out with commas are read back in full, with or without the matching expected length. |
| Intake.PctToDecimal | intake.js:34-46 | The result is null exactly for '', null and undefined and for unparsable text. A value above 1 is divided by 100; any other is kept. |
| Intake.PctToDecimalOfText | intake.js:39 | A non-empty string is treated as the number it spells. |
| Intake.PctToDecimalTwice | intake.js:45 | Applying the conversion to its own result changes nothing iff the input was at most 100. A value above 100 is divided a second time. |
| Intake.PctToDecimalExamples | intake.js:33-45 | 62 and 0.62 both give 0.62, and a blank string gives 0. |
| Intake.PercentRange | intake.js:45 | A percentage in (1, 100] becomes a fraction in (0.01, 1]. |
| Auth.SubmitRegister | auth.js:159-187 | Each message is shown iff its own check fails. The name check is a blank name after trimming. The email check is no '@'. The password check is fewer than 6 UTF-16 units. Earlier messages are hidden. The request goes out iff no message is shown, with the trimmed name and email and the raw password. |
| Auth.SubmitLogin | auth.js:228-249 | The email message is shown iff the email is blank after trimming. The password message is shown iff the password is empty. The request goes out iff neither is shown, with the trimmed email. |
| Auth.RegisterAcceptedLoginAccepted | auth.js:166-187 | Anything the register form accepts, the login form accepts. |
| Auth.LoginSkipsRegisterChecks | auth.js:234-249 | Login accepts an email without '@' and a one-character password that register rejects. |
| Auth.WhitespaceExamples | auth.js:162-184 | An untrimmed six-space password passes. A blank name is reported, and a stale password message disappears. |
| Analysis.PrepareChartData | analysis.js:167-183 | Four columns, as long as the entries. Position i of each is entry i's month, units, revenue and profit. |
| Analysis.ChartDataAppend | analysis.js:167-183 | The columns keep entry order: the chart of two runs is the first run's followed by the second's. |
| Analysis.ChartOfSavedProduct | analysis.js:167-183 | For a saved product, each revenue bar is price times units, and each profit point is that revenue less cost times units. |
| Analysis.AnalysisPage | analysis.js:279-291 | Charts are drawn iff there is a product with a present, non-empty monthlySales, and then with one point per entry. Otherwise the page reports no data. |
| ProductModels.StricterSchemaImpliesLooser | backend/models/ProductData.js:85-101 | A document valid under the ProductData.js schema is valid under the Product.js schema. |
| ProductModels.LooserSchemaIsStrictlyLooser | backend/models/Product.js:15-31 | Product.js accepts a document without region or prices, which ProductData.js rejects. |
| ProductModels.Derive | backend/models/Product.js:36-40 | A derived entry keeps month, cost, price and units. Its revenue is price times units, and its profit is revenue less cost times units. An already consistent entry is unchanged. |
| ProductModels.DeriveAll | backend/models/Product.js:36-40 | One derived, consistent entry per input entry, in order. |
| ProductModels.ProductPreSave | backend/models/Product.js:34-43 | Only `monthlySales` changes. It stays present iff it was, keeps its length, and every entry becomes consistent with unchanged inputs. |
| ProductModels.ProductDataPreSave | backend/models/ProductData.js:104-113 | Same as ProductPreSave, and a missing or empty array leaves the document untouched. |
| ProductModels.HooksAgree | backend/models/ProductData.js:104-113 | The length guard changes nothing observable: both hooks store the same document. |
| ProductModels.PreSaveIdempotent | backend/models/Product.js:34-43 | Saving twice stores the same document as saving once. |
| ProductModels.DataPreSaveIdempotent | backend/models/ProductData.js:104-113 | Saving twice stores the same document as saving once. |
| ProductModels.PreSaveKeepsValidity | backend/models/Product.js:4-43 | A document valid under either schema stays valid after the hook. |
| Calendar.DateMonth | backend/seed.js:61 | `new Date(y, m, 1)` lands in a normal month whose month count is the full year times 12 plus m: the month carries into the year either way, and years 0 to 99 mean 1900 to 1999. |
| Calendar.FromIndexSucc | backend/seed.js:61 | Counting one month further with `new Date(y, m, 1)` is stepping to the next calendar month, rolling December into January. |
| Calendar.NatToStringValue | backend/seed.js:62 | `String(n)` is a digit string that reads back as n. |
| Calendar.MonthDigitsPadded | backend/seed.js:62 | The month part is `String(m + 1).padStart(2, "0")`. |
| Calendar.MonthKeyParses | backend/seed.js:62 | The key of a four-digit year is `YYYY-MM` and parses back to the same month. |
| Calendar.MonthKeyOrder | backend/seed.js:62 | For four-digit years, string order on keys is chronological order. |
| Seed.GenerateMonthList | backend/seed.js:56-66 | `totalMonths` keys, or none for a non-positive count. Each is the key of a consecutive month, ending at the current month. |
| Seed.MonthRunEndsNow | backend/seed.js:60-64 | The last key is the current month's. |
| Seed.MonthRunConsecutive | backend/seed.js:60-64 | Each key after the first is the key of the calendar month after its predecessor. |
| Seed.MonthRunSorted | backend/seed.js:56-66 | With four-digit years every key parses to its month, and the list is strictly ascending in string order, the order the comparison page sorts months into. |
| Seed.JsRem | backend/seed.js:70 | `%` truncates toward zero: the result differs from the index by a multiple of 12. It is the Euclidean remainder for a non-negative index, and lies in (-12, 0] for a negative one, which together fix it as `-((-i) % 12)`. |
| Seed.SeasonalMultiplier | backend/seed.js:69-79 | The multiplier is one of 0.85, 1.0, 1.35 and 1.5. Negative indices get 0.85. |
| Seed.SeasonalTable | backend/seed.js:72-76 | For a non-negative index, the multiplier depends on the index modulo 12 by the commented table, and repeats every 12. |
| Seed.BaseUnits | backend/seed.js:89 | `Math.floor(u * 60 + 40)` lies in 40..99. |
| Seed.Round | backend/seed.js:90 | `Math.round` gives the nearest integer, with halves rounded up. |
| Seed.SeasonedUnits | backend/seed.js:89-90 | Seasoned units lie in 34..149 whatever the season. |
| Seed.SeedEntry | backend/seed.js:86-100 | An entry has its month key, no revenue or profit, whole prices with cost in 50..89 and a margin of 50..99, and the base units scaled by the season. |
| Seed.GenerateMonthlySales | backend/seed.js:82-104 | One entry per month key, in order, each within the seed bounds. The units are scaled by the multiplier of the entry's position. An entry is schema-valid iff its key is non-empty. |
| Seed.SeededEntryProfitable | backend/seed.js:92-93 | If a seeded entry goes through the pre-save hook, it sells above cost, with a profit of at least 1700 and below its revenue. |
| Seed.SeasonFollowsPosition | backend/seed.js:86 | As written, the first month of a two-year run ending in October 2026 is November 2024, yet it gets the January multiplier 0.85 instead of 1.5. |
| Seed.GenerateCalendarSales | backend/seed.js:82-104 | Corrected generator: the same entries, with units scaled by the multiplier of each key's calendar month. |
| Seed.SeedProductMonths | backend/seed.js:56-104 | The month list feeds the corrected generator. Entries come one per consecutive month, each seasoned by its own calendar month, schema-valid, without revenue or profit, and in ascending key order. |
| Seed.InsertSeededProduct | backend/seed.js:146 | As written, with `generateMonthList` and `generateMonthlySales` as they are and for any year, `insertMany` skips the pre-save hook, so the analysis page charts no revenue and no profit for any seeded month. |
| Seed.SaveSeededProduct | backend/seed.js:144-146 | Corrected: saved through the pre-save hook, every seeded month is charted with a revenue and a profit of at least 1700 below it. |
| ForecastApi.PrepareDataset | ml/forecast_api.py:9-14 | One pair per position while a full window and target fit. Every input window has `window` values. |
| ForecastApi.DatasetPairs | ml/forecast_api.py:11-13 | Each window followed by its target is a run of `window + 1` consecutive values. |
| ForecastApi.DatasetOverlap | ml/forecast_api.py:11-13 | The next window is this one shifted by the target. |
| ForecastApi.DatasetRebuildsSeries | ml/forecast_api.py:9-14 | The first window followed by all targets is the series. |
| ForecastApi.WindowAfterSteps | ml/forecast_api.py:41-48 | For the first three steps, the window is the last series values not yet shifted out, followed by the predictions so far. |
| ForecastApi.WindowOfPredictions | ml/forecast_api.py:43-48 | From the third step on, the model sees only its own last three predictions. |
| ForecastApi.Forecast | ml/forecast_api.py:24-48 | Fails iff the series has at most three values, because the empty training set cannot be reshaped. Otherwise it gives `steps` predictions (3 by default, none for a negative count). Each is the model's output on the current window: the last three series values shifted by the predictions so far. |
| ForecastApi.ForecastReplyAsWritten | ml/forecast_api.py:43-50 | As written, the reply is a JSON body only when the model trains and no step is asked for. Every other request fails, because the `float32` predictions cannot be serialised. |
| ForecastApi.ForecastReply | ml/forecast_api.py:24-50 | Corrected: the reply is a JSON body iff the series has more than three values. It holds `steps` predictions, each the model's output on its current window. |

## Left out

- JavaScript `NaN`: arithmetic is over exact reals. `Compare.PrepareData` requires every monthly entry without a stored revenue to carry a price and units (`AllCountable`). Otherwise that entry's revenue is `NaN`. `(monthMap[m.month] \|\| 0)` at compare.js:49 would then restart the month's total from 0 at its next entry, discarding the revenue before it. The model does not follow that path. `series[n - 1] \|\| 0` in `regressionForecast` therefore never sees `NaN`.
- Floating-point rounding: revenues, regression sums and `toFixed` formatting are exact. The total in `showInsights` is summed after the in-place sort; over reals the order does not change the sum.
- The grammar of `Number(text)` is the parameter `parseNum`. Blank text reads as 0, as JavaScript does.
- The DOM, `fetch`, `localStorage`, alerts, redirects and Chart.js drawing. `loadProduct` (analysis.js:126-158) is the `product` parameter of `Analysis.AnalysisPage`.
- A field stored as `null`: `None` in a document stands for a missing (`undefined`) field only. A `null` region or month becomes the key `"null"` at compare.js:38 and compare.js:49, not `"undefined"`. A `null` price or unit count multiplies as 0 at compare.js:48, where the model's `AllCountable` excludes it. Neither is modelled. `pctToDecimal` does take `null` and `undefined` apart, and so does the model (`JsValue`).
- Key order of JavaScript objects: `Object.keys` and `Object.entries` list integer-like keys such as `"2"` first, in numeric order, and the other keys after them in insertion order. The model lists every key in insertion order (`Tally.Build`). For months this makes no difference, because compare.js:53 sorts the keys before anything reads them. For regions it is an assumption: the order reaches the pie labels (compare.js:148) and the tie-break for the best region (compare.js:210). The region is whatever the product form submitted, and the form offers only North, South, East and West (products.js:115-119). A region `"2"` would come before `"North"`; that case is not modelled.
- Tally.Lookup: `(regionRevenue[p.region] || 0)` and `(monthMap[m.month] || 0)` (compare.js:38, 49) read from a plain `{}`, so a key naming an `Object.prototype` member is not an absent key. A region or month `"constructor"` or `"toString"` starts from a function, and its total becomes a string. A key `"__proto__"` is never stored, and its revenue drops out of the map. The model treats every key as an ordinary own property. So `Compare.RegionRevenueKeys`, `Compare.RegionRevenueTotals`, `Compare.MonthPairsTotals`, `Compare.MonthlySeriesContents` and `Compare.MonthlySeriesConserves` hold only for keys that do not name `Object.prototype` members.
- Compare.FirstMaxIndex: ties keep input order, as the stable `Array.prototype.sort` does. A non-stable engine could pick another maximal element.
- String comparison is by code point; JavaScript compares UTF-16 code units. The two agree on the Basic Multilingual Plane, where all month keys lie. `Utf16Length` does count surrogate pairs for the password length.
- `expectedLength` and `steps` are integers: a fractional `expectedLength` or `steps` is not modelled.
- Regression.Forecast: `count` is a `nat`; `Array(-1)` throws in JavaScript.
- `regressionForecast` (compare.js:64-87) has no guard against a zero divisor. `Regression.DenominatorClosedForm` proves the divisor positive whenever it is reached.
- ForecastApi.PrepareDataset: `window` is a `nat`; the service only passes 3.
- ForecastApi.Forecast: building and training the LSTM (ml/forecast_api.py:16-22, 35-38) is the parameter `predict`. It stops before the reply at line 50, which `ForecastApi.ForecastReplyAsWritten` models. `float32` rounding of the predictions, a JSON `null` for `steps` and the Flask routing are not modelled.
- Seed.MonthRunSorted: stated for four-digit years only (1000 to 9999), where keys have a fixed width. Dates beyond the ±271821-year range of `Date` are not modelled.
- The seed's users, the product-level figures of `createProducts`, the choice of products, the database connection and `createdAt` timestamps are left out. Storing the products (seed.js:146) is modelled only for what the analysis page then shows (`Seed.InsertSeededProduct`).
- ProductModels.ProductPreSave: it requires every entry to carry cost, price and units. Mongoose validates `required` paths before `pre("save")` hooks run, so the hook never sees an unpriced entry. How `{...m}` copies a Mongoose subdocument's internals is not modelled; the spread is taken to copy the entry's fields.
- backend/server.js, products.js, company.js and script.js are not part of this model.

## Findings

| source | as written | input that shows it | evidently intended | confidence | as-written member | corrected member |
|---|---|---|---|---|---|---|
| backend/seed.js:86 | `getSeasonalMultiplier(i)` is given the entry's position in the month list | A 24-month list ending October 2026 starts at November 2024, and that entry gets 0.85 (January/February) | The multiplier of the key's calendar month, as the comments "Jan-Feb low", "Nov-Dec festival spike" on lines 72-76 say: 1.5 for November | medium, not executed | Seed.SeasonFollowsPosition | Seed.GenerateCalendarSales |
| ml/forecast_api.py:50 | `jsonify({"forecast": predictions})` on a list of numpy `float32` values | Any series of four or more values with the default three steps: Flask's encoder raises a TypeError on `float32`, and the request fails | The forecast returned as JSON numbers, converting each prediction with `float(...)` | medium, not executed | ForecastApi.ForecastReplyAsWritten | ForecastApi.ForecastReply |
| backend/seed.js:146 | `Product.insertMany(products)`, which does not run the `pre("save")` hook of backend/models/Product.js:34-43 | Any seeded product: its entries are stored without `revenue` and `profit`, and the analysis page charts nothing for them (analysis.js:176, 179) | Entries stored with the revenue and profit the hook derives, as a product saved through `save` or `create` has | medium, not executed | Seed.InsertSeededProduct | Seed.SaveSeededProduct |
