# Equity research assistant: the stock score, its rating bands and the summary clean-up

This project models the deterministic part of a small stock-research app
(`app.py`). The app fetches a company's fundamentals, asks a language model
for a prose summary, and computes a 0–100 "custom score". Three things are
modelled:

- **The scorer** (`calculate_score`). It reads four entries of the
  fundamentals summary: P/E ratio, net income, revenue and market cap. Each
  entry may be an `int`, a `float` or the `"N/A"` placeholder. The scorer
  adds five banded sub-scores:
  - valuation: up to 25 points
  - profitability: up to 25 points
  - financial strength: up to 10 points
  - growth: up to 20 points
  - market opportunity: up to 15 points

  It then returns `min(round(score), 100)`, or the text `"N/A (<reason>)"`
  if an exception escapes.
- **The rating** of an integer score on the report: Strong from 75,
  Moderate from 50, Weak below 50. Any other result is shown as it is.
- **The clean-up** of the language model's text. It deletes every `*`, `_`
  and backquote, then strips the whitespace at both ends.

Layout:

- `fundamentals.dfy`: the tagged field values (`IntV`, `FloatV`, `Other`),
  the summary record and the scorer's result type.
- `tiers.dfy`: banding tables. Each sub-score is an `if x < b0 … elif …
  else` chain, or the same chain with `>`. A table lists that chain's
  thresholds and points. The lemmas prove, once for any table, that:
  - the first matching row decides the points;
  - the points stay between the else branch and the first row;
  - a table whose points never increase down the rows gives points that are
    monotone in the input.
- `scoring.dfy`: the five sub-scores and their total, defined from the
  source's tables. `CalculateScore` follows the source's accumulator and
  branches line by line. When the margin division `net_income / revenue`
  overflows a float, it returns the source's "N/A (…)" text; otherwise it
  returns exactly the table-defined total. That total always lies in
  [20, 95], so the cap at 100 never changes it. The overflow needs a net
  income beyond about 1.8e308.
- `rating.dfy`: the three bands and how a result is presented.
- `cleanup.dfy`: `replace` and `strip()` as functions on strings, with the
  whitespace set of Python's `str.isspace()`.

### Bands and range

The weights are 25/25/10/20/15. The bands are:
- P/E thresholds 10/20/30;
- margin thresholds 15%/8%/3%;
- revenue thresholds 10e9/2e9/500e6;
- market-cap thresholds 2e9/10e9.

Revenue points are non-decreasing in revenue. Market-cap points are
non-increasing in the cap. Every score the code can return lies in
[20, 95], not [0, 100].

## Model

| member | source | states |
|---|---|---|
| `Fundamentals.Value.IsPositiveInt` | app.py:97 | `isinstance(v, int) and v > 0` holds only of an int, never of a float, and only of a positive value |
| `Tiers.PointsBelow` | app.py:85-92 | the `if x < b … elif … else` chain awards only the points of one of its rows or of its else branch |
| `Tiers.PointsAbove` | app.py:118-125 | the `if x > b … elif … else` chain awards only the points of one of its rows or of its else branch |
| `Tiers.PointsBelowFirstMatch` | app.py:84-92 | a `<` threshold chain awards the points of the first row whose bound is above the input, and the else points when no row matches |
| `Tiers.PointsAboveFirstMatch` | app.py:117-125 | a `>` threshold chain awards the points of the first row whose bound is below the input, and the else points when no row matches |
| `Tiers.PointsBelowBounds` | app.py:130-136 | when later rows never award more, a `<` chain's points lie between the else branch and the first row |
| `Tiers.PointsAboveBounds` | app.py:99-106 | when later rows never award more, a `>` chain's points lie between the else branch and the first row |
| `Tiers.PointsBelowAntitone` | app.py:85-92 | a `<` chain with non-increasing points is non-increasing in its input |
| `Tiers.PointsAboveMonotone` | app.py:118-125 | a `>` chain with non-increasing points is non-decreasing in its input |
| `Scoring.Valuation` | app.py:83-94 | valuation points lie in [5, 25]; a P/E that is neither int nor float gets exactly 10 |
| `Scoring.Margin` | app.py:98 | the margin is the exact quotient: it times revenue gives net income, and it is positive exactly when net income is |
| `Scoring.Profitability` | app.py:96-108 | profitability points lie in [0, 25] and are positive exactly when net income and revenue are both positive ints |
| `Scoring.Strength` | app.py:110-114 | strength is 10 exactly when net income is a positive int, and 5 in every other case (float, "N/A", zero, negative) |
| `Scoring.Growth` | app.py:116-127 | growth points lie in [5, 20]; a revenue that is not an int gets 5 |
| `Scoring.Opportunity` | app.py:129-138 | opportunity points lie in [5, 15]; a market cap that is not an int gets 5 |
| `Scoring.Total` | app.py:77-138 | the sum of the five sub-scores always lies in [20, 95] |
| `Scoring.CalculateScore` | app.py:75-143 | the accumulator and branches as written return "N/A (integer division result too large for a float)" exactly when the margin division overflows a float; otherwise the score equals the table-defined total, lies in [20, 95] and is never changed by the cap at 100 |
| `Scoring.OverflowNeedsHugeIncome` | app.py:97-98 | the margin division overflows only for a net income of at least 2^1024 - 2^970 (about 1.8e308) |
| `Scoring.OverflowReachable` | app.py:98 | some summary does reach the overflow: net income 10^309 against revenue 1 |
| `Scoring.ValuationIntFloat` | app.py:84-92 | an int P/E and a float P/E of the same value earn the same valuation points |
| `Scoring.ValuationTiers` | app.py:84-94 | a numeric P/E below 10 scores 25, in [10, 20) 20, in [20, 30) 10, and 5 from 30; an int and a float of equal value score alike |
| `Scoring.ProfitabilityTiers` | app.py:97-106 | for positive net income and revenue, the margin tests `> 0.15`, `> 0.08`, `> 0.03` are the integer tests `100*netIncome > 15*revenue`, `> 8*revenue`, `> 3*revenue`, and those bands award 25/20/10, otherwise 5 |
| `Scoring.GrowthTiers` | app.py:117-125 | an int revenue above 10e9 scores 20, above 2e9 15, above 500e6 10, otherwise 5 |
| `Scoring.OpportunityTiers` | app.py:130-136 | an int market cap below 2e9 scores 15, below 10e9 10, otherwise 5 |
| `Scoring.ValuationNonIncreasing` | app.py:84-92 | a higher numeric P/E never earns more valuation points |
| `Scoring.ProfitabilityNonDecreasing` | app.py:97-108 | for int net incomes of any sign and positive int revenues, a higher margin never earns fewer profitability points, including the step from 0 points for a loss to at least 5 |
| `Scoring.GrowthNonDecreasing` | app.py:117-125 | a larger int revenue never earns fewer growth points |
| `Scoring.OpportunityNonIncreasing` | app.py:130-136 | a larger int market cap never earns more opportunity points |
| `Scoring.ProfitableIsStrong` | app.py:97-114 | any profitability points imply the full 10 strength points |
| `Scoring.TotalBoundsAttained` | app.py:77-140 | some summary scores exactly 20 and some exactly 95, so the range [20, 95] is tight |
| `TextCleanup.Without` | app.py:66 | `replace(c, "")` leaves no c; every other character keeps its count |
| `TextCleanup.WithoutConcat` | app.py:66 | deletion distributes over concatenation, so the remaining characters keep their order |
| `TextCleanup.WithoutAbsent` | app.py:66 | deleting a character that does not occur returns the text unchanged |
| `TextCleanup.IsSpace` | app.py:66 | the whitespace `strip()` removes includes the ASCII blanks and excludes `*`, `_`, backquote, letters and digits |
| `TextCleanup.TrimStart` | app.py:66 | `lstrip()` keeps the longest suffix that does not start with whitespace; everything cut off is whitespace |
| `TextCleanup.TrimEnd` | app.py:66 | `rstrip()` keeps the longest prefix that does not end with whitespace; everything cut off is whitespace |
| `TextCleanup.Strip` | app.py:66 | `strip()` returns a slice of its input with no whitespace at either end, and everything cut off either end is whitespace |
| `TextCleanup.StripCounts` | app.py:66 | stripping never adds to a character's count and keeps the count of every non-whitespace character |
| `TextCleanup.StripTrimmed` | app.py:66 | stripping text with no whitespace at either end returns it unchanged |
| `TextCleanup.StripAbsent` | app.py:66 | stripping never introduces a character |
| `TextCleanup.MarkupFree` | app.py:66 | after the three deletions, neither `*` nor `_` is left |
| `TextCleanup.Clean` | app.py:66 | the cleaned text has no `*`, `_` or backquote and no whitespace at either end; no character's count grows, and every other non-whitespace character keeps its count |
| `TextCleanup.CleanKeepsInterior` | app.py:66 | the cleaned text is a contiguous slice of the text after the three deletions, with only whitespace cut off either end, so interior whitespace and character order survive |
| `TextCleanup.CleanFixedPoint` | app.py:66 | the clean-up leaves a text unchanged exactly when it has no `*`, `_` or backquote and no whitespace at either end |
| `TextCleanup.CleanIdempotent` | app.py:66 | cleaning already-cleaned text changes nothing |
| `Rating.BandOf` | app.py:169-175 | every integer score falls in exactly one band: Strong from 75, Moderate in [50, 75), Weak below 50 |
| `Rating.BandMonotone` | app.py:169-175 | a higher score never falls in a weaker band |
| `Rating.NoProfitNeverStrong` | app.py:97-114 | without a positive int net income the score is at most 65, so the company is never rated Strong |
| `Rating.EveryBandReached` | app.py:168-175 | each of the three bands is reached by some summary |

## Left out

- The user interface: page setup, text input, button and rendering (app.py:11-17, 146-178). The model keeps only the score-to-band rule and the choice between a band and raw display.
- `get_summary` (app.py:20-33): it reads a network-backed dictionary from the `yfinance` library. The `Other` tag stands for its `"N/A"` default and for any other non-number. The "Company Name" entry is not modelled, because the scorer never reads it.
- `generate_ai_summary` (app.py:36-72): the HTTP call to the language-model service, the prompt, the indexing of the JSON response and the error messages are network I/O. Only the clean-up of line 66 is modelled.
- The API key from the environment (app.py:8): process configuration.
- IEEE floating point: a NaN or infinite P/E is not modelled. P/E is an exact real. Python compares an int with a float constant such as `10e9` exactly, so revenue and market cap are compared as integers, as in the source.
- `Scoring.Profitability`: the margin is the exact quotient, not the double that `net_income / revenue` rounds to. At a threshold itself both agree, because the quotient rounds to the same double as the literal. They can differ when the exact margin lies within a float rounding error (about 1e-17) above a threshold, which needs a revenue of about 10^16 or more. Net income 80000000000000001 against revenue 10^18 is an example: the model awards 20 points where the source awards 10.
- `Scoring.CalculateScore`: inherits that difference from `Scoring.Profitability`. The only exception it models is the overflow of the margin division. Every value that is neither an int nor a float (the placeholder, `None`, a list) takes the default branch of each test and raises nothing, so for the plain values `get_summary` returns, that overflow is the only exception.
- Python's `bool` being a subclass of `int`: `True` as a field value is not modelled.
- `Value.IsNumber` and `Value.AsReal`: the `isinstance` test and the numeric value of a field, definitions with no property beyond their bodies (app.py:84-90). That an int and a float of equal value score alike is `Scoring.ValuationIntFloat`.
- Lone surrogate code points: a Python `str` can hold them (for example from a `\ud800` escape in the JSON response) and a Dafny `char` cannot. The clean-up at app.py:66 does not depend on them, since they are neither markup nor whitespace.
- `Rating.Present`: a dispatch with no property beyond its definition. It shows an integer score with its band, and shows any other result as it is (app.py:169-177).
