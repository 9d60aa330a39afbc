# Dashboard KPI engine, auth form validation and nav highlight — a Dafny model

This project models the logic of a small React front end: a marketing site with
an analytics dashboard and a login/signup form.

- **Dashboard** (`client/src/pages/Dashboard.tsx`). The page holds two pieces of
  selection state: a range token ("30d", "90d", "180d" or "365d") and an
  ordered list of active customer segments (Retail, SME, Enterprise). `pickData`
  maps the token to one of four precomputed daily series. Every point then gets
  a `selectedTotal`: the sum of the active segments' values, with a missing
  value counting as 0. `totals` reduces the rows to four KPI figures:
  - the rounded current total;
  - the growth against the rounded first total;
  - the mean conversion rate;
  - the mean revenue per user (ARPU).

  A progress bar clamps `50 + growth` to [0, 100]. Clicking a segment chip
  toggles that segment.
  Modules: `DashboardSeries` (records, `pickData`, the selected total, the row
  derivation), `DashboardKpis` (rounding, totals, growth, averages, progress)
  and `DashboardSelection` (the toggle and the `Dashboard` class that holds
  the state).
- **Auth form** (`client/src/pages/AuthPage.tsx`), module `AuthPage`. It covers:
  - the mode taken from the `mode` query value;
  - `validate`, an ordered chain of checks where the first failure's message wins;
  - the API base address;
  - the endpoint and payload chosen by mode when the form is submitted.
- **Header** (`client/src/components/Header.tsx`), module `Header`: the
  `isActive` predicate that highlights a navigation link.

Numbers are Dafny `real`s. `Math.round(x)` is `Floor(x + 1/2)`. A division
by zero, which JavaScript turns into `Infinity` or `NaN`, appears as `None`.
The four generated series are a parameter (`Series`), because the code fills
them from `Math.random` and the clock. `WellFormed` states the length
each one has.

Behaviour worth noting:
- An unknown range token selects the 365-day series.
- Segments form a closed enumeration. A missing segment value counts as 0.
- An empty window, or an empty segment selection, gives a growth of -100
  percent: the baseline falls back to 1 while the current total is 0. See
  `TotalsOfEmptyWindow` and `TotalsOfEmptySelection`.
- `Dashboard.Rows` and `Dashboard.Summary` are functions of the state, so
  equal states give equal results.

## Model

| member | source | states |
|---|---|---|
| `DashboardSeries.WindowDays` | client/src/pages/Dashboard.tsx:93-105 | every token maps to 30, 90, 180 or 365 days; any token other than "30d", "90d", "180d" means 365 |
| `DashboardSeries.PickData` | client/src/pages/Dashboard.tsx:93-105 | "30d", "90d", "180d" select their series; every other token, "365d" and unknown ones alike, selects the 365-day series |
| `DashboardSeries.PickedLength` | client/src/pages/Dashboard.tsx:88-105 | for series generated one point per day, the picked series has exactly the token's number of days |
| `DashboardSeries.Value` | client/src/pages/Dashboard.tsx:142 | `d[s] ?? 0`: a segment's value, 0 when the point has none |
| `DashboardSeries.SelectedTotal` | client/src/pages/Dashboard.tsx:142 | the `reduce` over the active list: a left fold of the segment values starting at 0 (its properties are the lemmas below) |
| `DashboardSeries.SelectedTotalByCount` | client/src/pages/Dashboard.tsx:142 | the selected total is each segment's value (missing = 0) counted as many times as the segment is listed |
| `DashboardSeries.SelectedTotalOrderFree` | client/src/pages/Dashboard.tsx:142 | two selection lists with the same segments in any order give the same total |
| `DashboardSeries.SelectedTotalEmpty` | client/src/pages/Dashboard.tsx:142 | an empty selection gives 0 |
| `DashboardSeries.SelectedTotalAll` | client/src/pages/Dashboard.tsx:135-142 | the full selection gives Retail + SME + Enterprise, missing values as 0 |
| `DashboardSeries.SelectedTotalOfSet` | client/src/pages/Dashboard.tsx:142 | for a duplicate-free selection the total is the sum of the values of exactly the selected segments |
| `DashboardSeries.NoDuplicatesBound` | client/src/pages/Dashboard.tsx:267 | a duplicate-free selection has at most as many segments as the enumeration (the "n / 3" card) |
| `DashboardSeries.Derive` | client/src/pages/Dashboard.tsx:138-145 | the rows have the picked series' length and order; row i is point i unchanged plus its selected total |
| `DashboardSeries.DeriveEmptySelection` | client/src/pages/Dashboard.tsx:141-143 | with no active segment every row's total is 0 |
| `DashboardSeries.DeriveAllSegments` | client/src/pages/Dashboard.tsx:141-143 | with all three segments row i's total is that point's Retail + SME + Enterprise |
| `DashboardKpis.Round` | client/src/pages/Dashboard.tsx:150-151 | `Math.round` yields the integer within half a unit, halves rounded up |
| `DashboardKpis.LastTotal` | client/src/pages/Dashboard.tsx:148-150 | the last row's total, falling back to 0 for an empty window |
| `DashboardKpis.FirstBaseline` | client/src/pages/Dashboard.tsx:149-151 | the baseline before rounding is never 0: exactly 1 when the first total is missing or zero, otherwise the first total |
| `DashboardKpis.TotalNow` | client/src/pages/Dashboard.tsx:148-150 | the current total is 0 for an empty window, otherwise the last row's total rounded |
| `DashboardKpis.TotalPrev` | client/src/pages/Dashboard.tsx:149-151 | the divisor is 1 for an empty window or a zero first total, otherwise the first total rounded |
| `DashboardKpis.Growth` | client/src/pages/Dashboard.tsx:150-152 | growth is undefined exactly when the first total is nonzero and within [-1/2, 1/2); otherwise growth times the divisor is 100 times the change |
| `DashboardKpis.GrowthFlat` | client/src/pages/Dashboard.tsx:150-152 | equal rounded totals against a nonzero divisor give growth 0 |
| `DashboardKpis.GrowthSign` | client/src/pages/Dashboard.tsx:152 | against a positive divisor growth is non-negative exactly when the current total did not fall (the sign shown beside the bar) |
| `DashboardKpis.GrowthUndefinedBand` | client/src/pages/Dashboard.tsx:151-152 | for a non-negative first total, growth is undefined exactly when 0 < first total < 1/2 |
| `DashboardKpis.GrowthZeroDivisorExample` | client/src/pages/Dashboard.tsx:151-152 | a first total of 1/4 makes the divisor 0, whatever follows |
| `DashboardKpis.GuardedTotalPrev` | client/src/pages/Dashboard.tsx:151 | the corrected divisor is never 0 and equals the written one wherever that one is nonzero on a non-empty window |
| `DashboardKpis.GuardedGrowth` | client/src/pages/Dashboard.tsx:152 | the corrected growth is always defined: growth times the corrected divisor is 100 times the change |
| `DashboardKpis.GuardedGrowthAgrees` | client/src/pages/Dashboard.tsx:151-152 | the corrected growth equals the written growth wherever the written one is defined |
| `DashboardKpis.MetricOf` | client/src/pages/Dashboard.tsx:153-156 | a row's conversion or ARPU, falling back to 0 when absent |
| `DashboardKpis.MetricSum` | client/src/pages/Dashboard.tsx:153-156 | the `reduce` over the rows: a left fold of one metric starting at 0 (bounded by `MetricSumBounds`) |
| `DashboardKpis.Average` | client/src/pages/Dashboard.tsx:153-156 | sum / max(1, length): 0 for an empty window, otherwise the value whose product with the length is the sum |
| `DashboardKpis.MetricSumIgnoresTotals` | client/src/pages/Dashboard.tsx:141-156 | the conversion and ARPU sums read only the points, never the selected totals |
| `DashboardKpis.AverageIgnoresSelection` | client/src/pages/Dashboard.tsx:141-156 | the conversion and ARPU averages are the same for every segment selection |
| `DashboardKpis.MetricSumBounds` | client/src/pages/Dashboard.tsx:153-156 | if each row's value lies in [lo, hi], the sum lies in [n*lo, n*hi] |
| `DashboardKpis.AverageBounds` | client/src/pages/Dashboard.tsx:153-156 | the average of a non-empty window lies between any lower and upper bound of its row values |
| `DashboardKpis.Totals` | client/src/pages/Dashboard.tsx:147-163 | the KPI record holds the current total, the growth (undefined exactly in the zero-divisor band; otherwise growth times the divisor is 100 times the change) and the two averages |
| `DashboardKpis.TotalsOfEmptyWindow` | client/src/pages/Dashboard.tsx:147-163 | an empty window gives total 0, growth -100, averages 0 |
| `DashboardKpis.TotalsOfEmptySelection` | client/src/pages/Dashboard.tsx:141-152 | an empty selection on a non-empty window gives total 0 and growth -100 |
| `DashboardKpis.GrowthExample` | client/src/pages/Dashboard.tsx:150-152 | totals 100, 110, 121 give growth 21 |
| `DashboardKpis.Progress` | client/src/pages/Dashboard.tsx:234 | the bar value lies in [0, 100]; it is 50 + growth for growth in [-50, 50], 0 below and 100 above |
| `DashboardKpis.ProgressMonotone` | client/src/pages/Dashboard.tsx:234 | the bar never decreases as growth increases |
| `DashboardSelection.Remove` | client/src/pages/Dashboard.tsx:169 | the filter drops every occurrence of the segment and keeps the count of every other one; a list without the segment is unchanged |
| `DashboardSelection.RemoveAppend` | client/src/pages/Dashboard.tsx:169 | the filter distributes over concatenation, so the kept segments keep their relative order |
| `DashboardSelection.RemoveNoDuplicates` | client/src/pages/Dashboard.tsx:169 | the filter keeps a list duplicate-free |
| `DashboardSelection.Toggle` | client/src/pages/Dashboard.tsx:167-171 | a present segment is filtered out everywhere, the others keeping their counts and (with `RemoveAppend`) their relative order; an absent one is appended at the end; membership flips for exactly that segment |
| `DashboardSelection.ToggleKeepsOrder` | client/src/pages/Dashboard.tsx:167-171 | deselecting a segment leaves the segments before and after it in their order |
| `DashboardSelection.ToggleNoDuplicates` | client/src/pages/Dashboard.tsx:167-171 | toggling keeps the selection duplicate-free |
| `DashboardSelection.ToggleTwiceAbsent` | client/src/pages/Dashboard.tsx:167-171 | adding an absent segment and then removing it restores the list |
| `DashboardSelection.ToggleTwiceReorders` | client/src/pages/Dashboard.tsx:167-171 | removing SME from the initial list and adding it back puts it last |
| `DashboardSelection.Dashboard.constructor` | client/src/pages/Dashboard.tsx:134-135 | the page starts on "90d" with all three segments, duplicate-free |
| `DashboardSelection.Dashboard.SetRange` | client/src/pages/Dashboard.tsx:165 | choosing a range replaces the token and leaves the segments alone |
| `DashboardSelection.Dashboard.ToggleSegment` | client/src/pages/Dashboard.tsx:167-171 | a chip click replaces the segments by their toggle, keeps the range and keeps them duplicate-free |
| `DashboardSelection.Dashboard.Rows` | client/src/pages/Dashboard.tsx:138-145 | the rows follow the series picked by the current token, point for point, and each row's total is its point's selected total for the current segments |
| `DashboardSelection.Dashboard.Summary` | client/src/pages/Dashboard.tsx:147-163 | the KPI record is that of the current rows: their current total, their growth (undefined exactly in the zero-divisor band) and their two averages |
| `DashboardSelection.Dashboard.ActiveCount` | client/src/pages/Dashboard.tsx:267 | the "Segments Active" count is the selection's length and never exceeds 3 |
| `AuthPage.InitialMode` | client/src/pages/AuthPage.tsx:40 | the mode is signup exactly when the query value is "signup"; absent or any other value gives login |
| `AuthPage.SkipLeading` | client/src/pages/AuthPage.tsx:68 | the scan stops at the first non-whitespace character at or after the start, or at the end, having passed only whitespace |
| `AuthPage.SkipTrailing` | client/src/pages/AuthPage.tsx:68 | the scan stops just past the last non-whitespace character before the end, or at 0, having passed only whitespace |
| `AuthPage.TrimStart` | client/src/pages/AuthPage.tsx:68 | leading whitespace removed: a suffix that does not start with whitespace, everything dropped being whitespace |
| `AuthPage.TrimEnd` | client/src/pages/AuthPage.tsx:68 | trailing whitespace removed: a prefix that does not end with whitespace, everything dropped being whitespace |
| `AuthPage.Trim` | client/src/pages/AuthPage.tsx:68 | the result has no whitespace at either end; a whitespace-only string becomes empty; a string without edge whitespace is kept |
| `AuthPage.TrimIsSlice` | client/src/pages/AuthPage.tsx:68 | the trimmed string is the contiguous slice of the input that starts where the leading whitespace ends |
| `AuthPage.TrimDropsOnlyWhitespace` | client/src/pages/AuthPage.tsx:68 | everything of the input before and after the trimmed slice is whitespace |
| `AuthPage.EmailOk` | client/src/pages/AuthPage.tsx:67 | the email check: non-empty and containing '@' |
| `AuthPage.NameOk` | client/src/pages/AuthPage.tsx:68 | the name check: in signup mode at least two characters once trimmed; always passes in login mode |
| `AuthPage.PasswordOk` | client/src/pages/AuthPage.tsx:69 | the password check: at least six characters |
| `AuthPage.Validate` | client/src/pages/AuthPage.tsx:66-71 | a bad email gives the email message whatever else; then a short trimmed name in signup mode; then a password under 6; no message exactly when all applicable checks pass |
| `AuthPage.MessagesDistinct` | client/src/pages/AuthPage.tsx:67-69 | the three messages differ, so a message identifies the failed check |
| `AuthPage.LoginIgnoresName` | client/src/pages/AuthPage.tsx:68 | in login mode the name never changes the outcome |
| `AuthPage.WhitespaceNameRejected` | client/src/pages/AuthPage.tsx:68 | in signup mode a whitespace-only name is rejected once the email passes |
| `AuthPage.PasswordBoundary` | client/src/pages/AuthPage.tsx:69-70 | a 5-character password is rejected and a 6-character one accepted |
| `AuthPage.ApiBase` | client/src/pages/AuthPage.tsx:26-28 | the base address is never empty: the trimmed environment value, or the localhost default when absent or blank |
| `AuthPage.BuildRequest` | client/src/pages/AuthPage.tsx:86-94 | login posts to base/api/auth/login with email, password, remember; signup posts to base/api/auth/signup with name, email, password |
| `AuthPage.EndpointsDiffer` | client/src/pages/AuthPage.tsx:86-89 | the two modes never post to the same URL |
| `AuthPage.Submit` | client/src/pages/AuthPage.tsx:78-94 | a validation message stops the submission with that message; otherwise the result is exactly the request `BuildRequest` makes for the current mode |
| `AuthPage.LoginSubmitIgnoresName` | client/src/pages/AuthPage.tsx:66-94 | a login submission's outcome does not depend on the name field |
| `Header.IsActive` | client/src/components/Header.tsx:56-57 | active when the target is the path or the path plus hash, and in no other case; with an empty hash exactly when it is the path |
| `Header.AtMostTwoActive` | client/src/components/Header.tsx:56-57 | no three distinct targets are active at once |
| `Header.FeaturesSectionActive` | client/src/components/Header.tsx:105-107 | at "/" with hash "#features" only the Features link is active |
| `Header.DashboardPageActive` | client/src/components/Header.tsx:105-107 | at "/dashboard" with no hash only the Dashboard link is active |
| `Header.HashKeepsPathActive` | client/src/components/Header.tsx:56-57 | with any hash, both the bare path and the path plus hash count as active |

## Findings

| source | as written | input that shows it | evidently intended | confidence | as-written member | corrected member |
|---|---|---|---|---|---|---|
| client/src/pages/Dashboard.tsx:151-152 | the fallback to 1 applies to the first total before rounding, so a truthy first total below 1/2 still rounds to a divisor of 0 | first row's selected total 0.25 (any later rows) | the divisor never 0: the rounded first total, replaced by 1 when it rounds to 0 | not executed; high | `DashboardKpis.GrowthZeroDivisorExample` | `DashboardKpis.GuardedGrowth` |

`Growth` models the code as written and reports the zero divisor as `None`.
`GuardedGrowth` (with `GuardedTotalPrev`) is the corrected definition. It is
always defined, and `GuardedGrowthAgrees` proves it agrees with `Growth`
wherever `Growth` is defined. The KPI record (`Totals`, `Dashboard.Summary`)
keeps the growth as written, so that it shows what the page computes.

## Left out

- Series generation (`genSeries`, `COHORT_POINTS`): it uses `Math.random` and the current date. The four series are a parameter; `WellFormed` records only their lengths. Date order is not checked, and the model preserves whatever order it is given.
- IEEE-754 behaviour: `Infinity`, `NaN`, negative zero and rounding error. A division by zero is `None` instead.
- Number formatting (`toFixed`, `toLocaleString`), charts, colours, layout, the pie chart's hover state and React memoisation: presentation only.
- `handleSubmit`'s network call, JSON parsing, token storage in `localStorage`/`sessionStorage`, the success message, the delayed navigation and the `submitting` flag: I/O and browser APIs. `Submit` stops where the request is sent.
- The query-string rewrite on mode change (`history.replaceState`) and the links that switch mode: browser history and UI. Reading the query string is a parameter (`Option<string>`) of `InitialMode`; the environment variable is a parameter of `ApiBase`.
- `AuthPage.Trim`: trims only ASCII space, tab, line feed, vertical tab, form feed and carriage return, not the other Unicode whitespace JavaScript's `trim` removes.
- `AuthPage.PasswordOk` and `AuthPage.NameOk`: lengths count characters, not UTF-16 code units, so a character outside the Basic Multilingual Plane counts 1 here where JavaScript's `length` counts 2 (three such characters make a 6-unit password the page accepts and the model rejects).
- The header's drawer state, `NavButton` styling and scroll hiding, and the pages `Home.tsx`, `Footer.tsx`, `App.tsx`: static content and routing, with no logic to verify.
