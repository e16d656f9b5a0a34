# q_finance_demo job lifecycle, modelled in Dafny

This project models the job pipeline of the q_finance_demo quant-finance application. A page in
the React front end builds a job request. The Flask backend stores it as a job document, and a
Celery task prices options or optimises a portfolio. It ends by writing "Succeeded" or
"Failed" back into the document. The job page polls the document, chooses which panels to show
and draws a subset of the stored Monte-Carlo paths.

One module per source file:

- `Sanitize` (`backend/utils/sanitize.py`): ticker normalisation and the deep replacement of NaN and the infinities.
- `JsonSafe` (`backend/utils/json_safe.py`): conversion of a result into JSON-safe values.
- `Jobs` (`backend/models/jobs.py`): the job document, its creation and listing, and the status-update rule. The collection is a `JobStore` class whose `docs` sequence the methods reassign.
- `RoutesJobs` (`backend/routes/jobs.py`): the `/jobs` HTTP handlers.
- `Paths` (`backend/storage/paths.py`): the stored-paths record and the sub-selection of stored paths.
- `OptionPricing` (`backend/tasks/option_pricing.py`): the four branches of `run_option_job`.
- `Optimization` (`backend/tasks/optimization.py`): `run_optimization_job` with its constraint flags, target and problem set-up.
- `PortfolioDetail`, `OptionsPage`, `OptimPage` and `JobDetail`: the four front-end pages. Their state variables are class fields, updated by methods.

Four helper modules carry the runtime semantics the source relies on:

- `Base`: ASCII case mapping and number-to-text conversion.
- `Floats`: IEEE special values.
- `PyValue`: Python values with their truthiness, `str`, `float()` and `int()`, and dicts kept as ordered item lists.
- `Browser`: JavaScript numbers, `trim`, the strike list and the request body.

Every job request a page builds is the value the backend's `request.get_json()` reads. This lets
lemmas connect each page to the backend branch its request takes.

Facts about the code that the model keeps:

- A new job's status is "Queued".
- `set_job_status` accepts any transition, including a regression from a terminal status (`Jobs.AnyTransitionAccepted`).
- `load_paths_subset` strides over paths (rows), not over time steps.
- Its `n_total` counts the rows returned, not the rows stored.
- Its `steps_total` is the stored column count, which is `num_steps + 1`.
- A MonteCarlo pricing with 0 steps fails with ZeroDivisionError, and one with a negative step or path count fails with numpy's ValueError; the job then ends "Failed".

## Model

| member | source | states |
|---|---|---|
| Sanitize.Strip | backend/utils/sanitize.py:13 | `strip()`: a result with no Python whitespace at either end, never longer than the input |
| Sanitize.StripIsSlice | backend/utils/sanitize.py:13 | the stripped text is a contiguous slice of the input with only whitespace on either side |
| Sanitize.StripSurrounded | backend/utils/sanitize.py:13 | whitespace around a trimmed non-empty text is exactly what `strip()` removes |
| Sanitize.StripTrimmedIsIdentity | backend/utils/sanitize.py:13 | `strip()` leaves an already trimmed text unchanged |
| Sanitize.DropDollar | backend/utils/sanitize.py:14-15 | the result is the input or the input with one leading "$" removed |
| Sanitize.NormalizeTicker | backend/utils/sanitize.py:10-16 | None and "" come back unchanged; any other text gives a text |
| Sanitize.NormalizeTickerCases | backend/utils/sanitize.py:10-16 | for non-empty input: "APPL" and "$APPL" become "AAPL"; otherwise the result is the stripped upper-cased text, minus one leading "$" if it has one |
| Sanitize.NormalizeTickerUpperAndShorter | backend/utils/sanitize.py:13-16 | the result has no lower-case ASCII letter and is never longer than the input |
| Sanitize.NormalizeTrimmed | backend/utils/sanitize.py:13-16 | on trimmed input the strip step does nothing |
| Sanitize.NormalizeFixedPoint | backend/utils/sanitize.py:10-16 | a trimmed upper-case ticker without "$" that is not "APPL" is a fixed point |
| Sanitize.NormalizeTickerStable | backend/utils/sanitize.py:10-16 | normalising twice equals normalising once when the result starts with neither whitespace nor "$" |
| Sanitize.NormalizeTickerNotIdempotent | backend/utils/sanitize.py:14-16 | the function is not idempotent: "$$appl" gives "$APPL", which normalises again to "AAPL" |
| Sanitize.NormalizeTickerFixesTypo | backend/utils/sanitize.py:5-7 | "$appl" is corrected to "AAPL" after the "$" is dropped |
| Sanitize.NormalizeTickerStrips | backend/utils/sanitize.py:13 | surrounding whitespace, including a newline, is removed: " msft\n" gives "MSFT" |
| Sanitize.CleanNumber | backend/utils/sanitize.py:19-28 | NaN and ±inf become None; finite floats, ints and None are kept; a bool becomes the int 0 or 1; anything else passes through |
| Sanitize.CleanNumbers | backend/utils/sanitize.py:31-38 | the same shape comes back: dicts keep their keys, lists stay lists and tuples stay tuples; scalars go through `_clean_number` |
| Sanitize.CleanNumbersAllFinite | backend/utils/sanitize.py:31-38 | on a value without sets, no NaN or infinity is left at any depth |
| Sanitize.CleanNumbersKeepsNaNInSet | backend/utils/sanitize.py:35-38 | a set is not recursed into, so a NaN inside it survives |
| Sanitize.CleanNumbersIdempotent | backend/utils/sanitize.py:31-38 | cleaning twice equals cleaning once |
| Sanitize.CleanNumbersLookup | backend/utils/sanitize.py:33-34 | a key of the cleaned dict holds the cleaned value of that key, and a missing key stays missing |
| JsonSafe.ToNative | backend/utils/json_safe.py:8-26 | non-finite floats become None; dates and datetimes become text; every other value is kept |
| JsonSafe.NaiveDateTimeIsUtc | backend/utils/json_safe.py:15-19 | a naive datetime is written as the same wall time in UTC and ends in "+00:00" |
| JsonSafe.Assign | backend/utils/json_safe.py:31-32 | `d[k] = v` keeps an existing key's position and appends a new key |
| JsonSafe.AssignLookup | backend/utils/json_safe.py:31-32 | after `d[k] = v`, `k` reads `v` and every other key reads as before |
| JsonSafe.AssignKeepsDistinct | backend/utils/json_safe.py:31-32 | assignment keeps the keys distinct |
| JsonSafe.FromPairs | backend/utils/json_safe.py:31-32 | a dict comprehension builds distinct keys drawn from its pairs |
| JsonSafe.FromPairsLastWins | backend/utils/json_safe.py:31-32 | for colliding keys the comprehension keeps the last value; the reference is `LastValue` |
| JsonSafe.FromPairsDistinct | backend/utils/json_safe.py:31-32 | pairs with distinct keys come back unchanged |
| JsonSafe.JsonSanitize | backend/utils/json_safe.py:29-35 | the result is JSON-safe at every depth; dicts never grow; lists, tuples and sets become lists of the same length; scalars go through `_to_native` |
| JsonSafe.JsonSafeIsFixed | backend/utils/json_safe.py:29-35 | a JSON-safe value is left unchanged |
| JsonSafe.JsonSanitizeIdempotent | backend/utils/json_safe.py:29-35 | sanitising twice equals sanitising once |
| JsonSafe.JsonSanitizeKeyCollision | backend/utils/json_safe.py:32 | keys 1 and "1" collide once written as text, and the later value wins |
| JsonSafe.JsonSanitizeLookup | backend/utils/json_safe.py:32 | a text key reads the sanitised value of the last item whose key prints as that text |
| Jobs.NameOr | backend/models/jobs.py:42-46 | a falsy id gets no name and is not looked up; a truthy id gets the directory's answer |
| Jobs.QueuedJob | backend/models/jobs.py:53-73 | the document is Queued, created and updated now, never started or finished, and has no result or error |
| Jobs.NewJobDoc | backend/models/jobs.py:49-75 | a non-dict payload raises on `.get`; a missing "type" or "algo" is a KeyError; otherwise the document is Queued with the payload's type and algo |
| Jobs.NewJobDefaults | backend/models/jobs.py:54-70 | the id is the payload's own truthy id, else the fresh one; priority defaults to "Normal", submitter to "You" and params to {}; falsy ids have no names |
| Jobs.FindJob | backend/models/jobs.py:87-88 | None exactly when no document has the id; otherwise the first document with it |
| Jobs.Duration | backend/models/jobs.py:115-117 | the duration is never negative; 0 when now is before the base; otherwise the whole seconds elapsed |
| Jobs.StatusUpdate | backend/models/jobs.py:97-125 | status and updatedAt always; startedAt only for a first "Running"; finish time and duration exactly for terminal statuses; result and error when terminal or when either is given, with dict results cleaned |
| Jobs.ApplyUpdate | backend/models/jobs.py:126 | `$set` overwrites the keys present in the update; every other field keeps its stored value |
| Jobs.SetStatusIn | backend/models/jobs.py:126 | only the first document with the id changes; every other document, and which document is first, stays as it was |
| Jobs.StatusUpdateOf | backend/models/jobs.py:97-125 | the update built field by field equals `StatusUpdate` |
| Jobs.StatusUpdateIgnoresOldStatus | backend/models/jobs.py:91-126 | the stored status is never read |
| Jobs.AnyTransitionAccepted | backend/models/jobs.py:91-126 | every requested status is written, a regression from a terminal status included, and the job's identity is kept |
| Jobs.RepeatedRunningKeepsStart | backend/models/jobs.py:109-110 | a second "Running" keeps the first start time |
| Jobs.TerminalStatusWritesOutcome | backend/models/jobs.py:112-119 | a terminal status records the finish time, the duration from start (or creation), the cleaned result and the error |
| Jobs.ProgressKeepsOutcome | backend/models/jobs.py:120-123 | a non-terminal status with neither result nor error keeps the outcome and finish data |
| Jobs.Finish | backend/tasks/option_pricing.py:492-499 | the Celery task ends in exactly one terminal write: Succeeded with the result, or Failed with the message |
| Jobs.RunLeavesTerminalJob | backend/models/jobs.py:91-126 | after "Running" and then the terminal write, the job is started, finished and timed; it holds either the cleaned result and no error, or the error and no result |
| Jobs.JobStore.NewJob | backend/models/jobs.py:49-75 | inserts the document exactly when it can be built, and returns it |
| Jobs.JobStore.ListJobs | backend/models/jobs.py:78-84 | at most 200 stored jobs matching the truthy filters, newest first, and no match newer than one left out |
| Jobs.JobStore.GetJob | backend/models/jobs.py:87-88 | returns `FindJob` of the stored documents |
| Jobs.JobStore.SetJobStatus | backend/models/jobs.py:91-126 | the collection becomes `SetStatusIn` of the old one |
| Query.Filter | backend/models/jobs.py:79-83 | keeps exactly the matching documents, each as often as stored |
| Query.SortDesc | backend/models/jobs.py:84 | a descending permutation of the documents |
| Query.Top | backend/models/jobs.py:84 | `sort(-1).limit(n)`: min(n, size) documents, descending; every document left out has a key no larger than any kept one |
| Query.TopAll | backend/models/jobs.py:84 | a limit at least the collection size keeps every document |
| RoutesJobs.HttpList | backend/routes/jobs.py:63-69 | 200 with the newest 200 stored jobs matching the truthy query arguments, newest first (`Top` of the filtered jobs) |
| RoutesJobs.DispatchFor | backend/routes/jobs.py:75-82 | OptionPricing queues the pricing task and PortfolioOptimization the optimisation task, each with its arguments; any other type queues nothing |
| RoutesJobs.HttpSubmit | backend/routes/jobs.py:72-83 | 201 with the new job, stored and dispatched; when new_job raises, a 500 with nothing stored or queued |
| RoutesJobs.EmptySubmitFails | backend/routes/jobs.py:74 | an empty or absent body becomes {} and fails on the missing "type" |
| RoutesJobs.HttpGet | backend/routes/jobs.py:86-89 | 404 "Not found" exactly when no job has the id; otherwise 200 with that job |
| RoutesJobs.ByStatus | backend/routes/jobs.py:94-96 | one count per listed status, in order, summing to the number of jobs with a listed status |
| RoutesJobs.RunningJobs | backend/routes/jobs.py:98-100 | min(10, running count) stored running jobs, drawn without repeats, most recently updated first; no running job left out was updated later than one kept |
| RoutesJobs.JobsStats | backend/routes/jobs.py:92-103 | the counts; a total equal to the job count when every status is listed; the ten newest jobs; the ten most recently updated running jobs, none fresher left out |
| RoutesJobs.TotalCountsKnown | backend/routes/jobs.py:95-96 | the five counts add up to the number of jobs with one of the five statuses |
| RoutesJobs.OneStatusEach | backend/routes/jobs.py:95 | a job is counted once when its status is listed, otherwise never |
| RoutesJobs.ResultOrEmpty | backend/routes/jobs.py:111 | `result or {}` |
| RoutesJobs.PathsStepFor | backend/routes/jobs.py:107-116 | 404 for an unknown job; 404 for a result without truthy "paths"; otherwise the record's gridfs_id and the parsed limit and stride |
| RoutesJobs.JobPaths | backend/routes/jobs.py:106-128 | corrected route: the answers of the guards; a 404 without a stored file; otherwise 200 with the job's own `load_paths_subset` |
| RoutesJobs.PathsBodyIsStrided | backend/routes/jobs.py:115-128 | a 200 body has at most max(1, limit) rows, each the stored row at index i·max(1, stride), with one value per time point |
| RoutesJobs.JobPathsAsWritten | backend/routes/jobs.py:114-119 | as written, every request that passes the guards raises |
| RoutesJobs.PathsNeverServedAsWritten | backend/routes/jobs.py:114-128 | as written the route never answers 200, while the corrected route does whenever the paths are stored |
| RoutesJobs.NoPathsRecord | backend/routes/jobs.py:111-113 | a result without truthy "paths" answers 404 |
| RoutesJobs.FinishedJobFound | backend/routes/jobs.py:86-89 | a finished job is found again by its id, holding the cleaned result or no result |
| RoutesJobs.FailedJobHasNoPaths | backend/routes/jobs.py:111-113 | a failed job's paths request answers 404 |
| RoutesJobs.SucceededWithoutPaths | backend/routes/jobs.py:111-113 | a succeeded result without a "paths" key answers 404 |
| RoutesJobs.MultiLegJobHasNoPaths | backend/routes/jobs.py:111-113 | a multi-leg job keeps its paths under its first leg, so it answers 404 even when the file exists |
| Paths.SavePathsMeta | backend/storage/paths.py:67-71 | the record holds the file id, the row count and the column count |
| Paths.StrideRows | backend/storage/paths.py:83 | `P[::s]` keeps ceil(n/s) rows, row i being stored row i·s |
| Paths.StrideKeepsMultiples | backend/storage/paths.py:83 | every stored row at a multiple of s is kept |
| Paths.StrideCountIsCeiling | backend/storage/paths.py:83 | position k is kept exactly when k·s < n |
| Paths.Linspace | backend/storage/paths.py:85 | `cols` strictly increasing points from 0 to 1, equally spaced by 1/(cols-1) |
| Paths.LoadPathsSubset | backend/storage/paths.py:74-92 | None exactly without a file; otherwise min(max(1, limit), ceil(n/max(1, stride))) rows, each stored row i·max(1, stride) kept whole on a 0..1 axis; n_total is the rows returned |
| Paths.NonPositiveStrideIsOne | backend/storage/paths.py:83-84 | a stride of 1 or less gives the first max(1, limit) stored rows |
| OptionPricing.BlackScholes | backend/tasks/option_pricing.py:18-20 | 0.0 whenever T, sigma, S0 or K is not positive |
| OptionPricing.NaNVolatilityPassesGuard | backend/tasks/option_pricing.py:19 | a NaN sigma passes the `<=` guard and reaches the formula |
| OptionPricing.McShapeError | backend/tasks/option_pricing.py:29-35 | no error exactly for a positive step count and a non-negative path count; 0 steps is "float division by zero", a negative count "negative dimensions are not allowed" |
| OptionPricing.EuropeanMc | backend/tasks/option_pricing.py:29-72 | fails exactly on the shape errors, with their text; otherwise a price and stderr, and a paths record exactly when asked to save with a non-empty job id, holding the file id, the paths and steps+1 |
| OptionPricing.PriceBy | backend/tasks/option_pricing.py:266-289 | fails exactly for MonteCarlo with a shape error; BlackScholes and MonteCarlo price, with BlackScholes stderr 0; any other algo prices nothing; only MonteCarlo stores paths |
| OptionPricing.FlagValues | backend/tasks/option_pricing.py:259-264 | the accepted and rejected spellings: "on", "TRUE", True and 1 are true; "false", False and "OFF" are false; "y" and "" are neither |
| OptionPricing.FlagsExclusive | backend/tasks/option_pricing.py:331-336 | no value is both a true and a false flag |
| OptionPricing.ChooseBranch | backend/tasks/option_pricing.py:218-219 | multi-leg iff European with truthy legs; else chain iff use_chain is true, historical iff false; otherwise unsupported |
| OptionPricing.DefaultBranchIsHistorical | backend/tasks/option_pricing.py:403-405 | a European job with neither legs nor use_chain is priced from history |
| OptionPricing.ParseLeg | backend/tasks/option_pricing.py:224-230 | a non-dict leg raises on `.get`; an accepted leg has a non-empty ticker with no lower-case letter, an expiry, a truthy strike and an upper-case option type |
| OptionPricing.LegValidation | backend/tasks/option_pricing.py:229-230 | a leg fails exactly when its normalised ticker, expiry or strike is falsy; the message numbers the leg from 1 |
| OptionPricing.LegWithoutStrike | backend/tasks/option_pricing.py:227 | a leg without a strike fails in `float(None)` |
| OptionPricing.LegDefaults | backend/tasks/option_pricing.py:224-228 | option type defaults to CALL and qty to 1.0 |
| OptionPricing.LegSteps | backend/tasks/option_pricing.py:257 | the leg's num_steps, else the params', else 252 |
| OptionPricing.LegPaths | backend/tasks/option_pricing.py:258 | the leg's num_paths, else the params', else 50000 |
| Base.NatToStringReadsBack | backend/tasks/option_pricing.py:230 | the decimal text of `idx+1` in the leg message reads back as that number, with no leading zero |
| OptionPricing.LegOutcome | backend/tasks/option_pricing.py:223-307 | a leg that does not parse fails with the parse error; a record is numbered idx+1; only leg 1 may store paths; a record is priced iff the algo is BlackScholes or MonteCarlo; S0 is truthy |
| OptionPricing.Collect | backend/tasks/option_pricing.py:223 | succeeds iff every leg does, with one record per leg in order |
| OptionPricing.LegsNumberedInOrder | backend/tasks/option_pricing.py:291-307 | one record per leg, numbered 1..n in input order; no leg after the first stores paths |
| OptionPricing.TotalsOverPricedLegs | backend/tasks/option_pricing.py:308-310 | the totals are Σ price·qty and Σ qty over priced legs only; the reference is `Notional` and `PricedQty` |
| OptionPricing.UnpricedLegsCountInNeither | backend/tasks/option_pricing.py:308-310 | unpriced legs leave both totals at 0 |
| OptionPricing.QaeTotals | backend/tasks/option_pricing.py:286-289 | with a QAE algo the notional is 0 and the weighted average is None |
| OptionPricing.CollectFirstError | backend/tasks/option_pricing.py:223-230 | the first failing leg's error is the loop's |
| OptionPricing.PriceLegsLoop | backend/tasks/option_pricing.py:220-310 | the loop as written equals `PriceLegs` |
| OptionPricing.WeightedAvg | backend/tasks/option_pricing.py:321-323 | None exactly when total_qty is not positive; otherwise notional/qty |
| OptionPricing.MultiLegValue | backend/tasks/option_pricing.py:315-325 | four keys, the leg records in order, and no top-level "paths" |
| OptionPricing.ChainInstrument | backend/tasks/option_pricing.py:339-345 | an accepted instrument has a ticker, an expiry and a truthy strike; a strike `float` cannot read is that error |
| OptionPricing.ChainQuoteRequest | backend/tasks/option_pricing.py:347-365 | the request keeps the expiry and strike, has a truthy S0, a normalised ticker and the chain's iv, with no fallback, and the parsed num_steps and num_paths |
| OptionPricing.ChainRequest | backend/tasks/option_pricing.py:338-365 | an accepted request has an expiry, a truthy strike and a truthy spot; instrument errors come first |
| OptionPricing.ChainRequiresFields | backend/tasks/option_pricing.py:342-345 | a missing ticker, expiry or strike gives the one "required when use_chain=true" message |
| OptionPricing.ChainDoc | backend/tasks/option_pricing.py:367-399 | starts with source "yfinance_chain" and ends with the request's product and algo; "paths" only for MonteCarlo with save_paths and a job id |
| OptionPricing.ChainSingleResult | backend/tasks/option_pricing.py:338-401 | succeeds iff the request and its pricing do, with `ChainDoc`; otherwise the first of their errors |
| OptionPricing.HistSpot | backend/tasks/option_pricing.py:417-425 | a truthy fast-info price, else the last 5-day close, else "no recent price for S0" |
| OptionPricing.HistMaturity | backend/tasks/option_pricing.py:427-434 | a truthy expiry wins; else T; else 0.5 |
| OptionPricing.HistSigma | backend/tasks/option_pricing.py:436-443 | the given sigma unless None or ""; else the 1y estimate, else "no historical data for sigma" |
| OptionPricing.HistRequest | backend/tasks/option_pricing.py:410-452 | S0, T and sigma come from the three rules above; a strike `float` cannot read is that error |
| OptionPricing.HistDoc | backend/tasks/option_pricing.py:454-490 | product always "European"; "paths" iff MonteCarlo; "price" iff BlackScholes or MonteCarlo |
| OptionPricing.HistoricalResult | backend/tasks/option_pricing.py:403-493 | succeeds iff the request and its pricing do, with `HistDoc`; otherwise the first of their errors |
| OptionPricing.HistoricalMonteCarloCounts | backend/tasks/option_pricing.py:29-35 | a MonteCarlo historical job fails on 0 steps with ZeroDivisionError and on a negative count with ValueError, and prices otherwise |
| OptionPricing.HistoricalBlankQFails | backend/tasks/option_pricing.py:412-414 | a historical request with a parsing strike and r and q "" fails in `float("")` |
| OptionPricing.OptionResult | backend/tasks/option_pricing.py:216-499 | corrected task: a non-dict params raises on `.get`; unsupported gives the fixed message; otherwise the chosen branch's result |
| OptionPricing.MultiLegFirstFailure | backend/tasks/option_pricing.py:223-230 | a multi-leg job fails with its first failing leg's error |
| OptionPricing.MultiLegSucceedsWhenLegsDo | backend/tasks/option_pricing.py:218-327 | when every leg prices, the corrected task returns the multi-leg document and the Celery task as written still fails |
| OptionPricing.UnsupportedProductFails | backend/tasks/option_pricing.py:496 | any product other than None, "" or European fails |
| OptionPricing.RunOptionJob | backend/tasks/option_pricing.py:213-499 | as written: "Running", then exactly one terminal write of `OptionResultAsWritten`, so multi-leg and chain jobs end Failed |
| OptionPricing.RunOptionJobCorrected | backend/tasks/option_pricing.py:213-499 | corrected: "Running", then exactly one terminal write of `OptionResult` |
| OptionPricing.OptionJobBody | backend/tasks/option_pricing.py:214-497 | the branch statements, the legs by a loop, equal `OptionResult` |
| OptionPricing.OptionResultAsWritten | backend/tasks/option_pricing.py:213-499 | as written, the multi-leg and chain branches always fail; the other branches match the corrected task |
| OptionPricing.ChainRequestAsWrittenFails | backend/tasks/option_pricing.py:338-411 | a well-formed AAPL chain request fails with the unbound-local error as written and succeeds when corrected |
| Optimization.StoredPortfolio | backend/tasks/optimization.py:155 | the job document's portfolioId, None without a document |
| Optimization.StoredPortfolioSurvivesStatus | backend/tasks/optimization.py:149-157 | the "Running" write does not change the portfolio the Celery task reads afterwards |
| Optimization.PortfolioId | backend/tasks/optimization.py:151-157 | portfolioId, else portfolio_id, else the stored one; falsy exactly when all three are |
| Optimization.Tickers | backend/tasks/optimization.py:161 | one ticker per asset, or the KeyError 'ticker' |
| Optimization.SecondField | backend/tasks/optimization.py:189 | `split("=")[1]`: None exactly without "="; the field holds no "=" |
| Optimization.SecondFieldOf | backend/tasks/optimization.py:189 | the text between the first and second "=" is the field |
| Optimization.ISqrt | backend/tasks/optimization.py:191 | the integer square root |
| Optimization.CardinalityOf | backend/tasks/optimization.py:186-191 | the parsed k after "=", else max(1, ⌊√n⌋) |
| Optimization.FlagsFor | backend/tasks/optimization.py:172-191 | long_only and gross_leq_1 always; cap 0.20 iff "Max weight 20%"; cardinality iff the label starts with "Cardinality"; never both a cap and a cardinality |
| Optimization.ConstraintFlags | backend/tasks/optimization.py:172-191 | the if/elif chain equals `FlagsFor` |
| Optimization.LabelsWithoutEffect | backend/tasks/optimization.py:177-181 | every other label gives the defaults |
| Optimization.CardinalityLabels | backend/tasks/optimization.py:186-191 | "Cardinality=k" asks for k; a bare "Cardinality" asks for max(1, ⌊√n⌋) |
| Optimization.TargetOf | backend/tasks/optimization.py:170-171 | no target exactly for None or ""; numbers kept; text parsed or the ValueError |
| Optimization.Bound | backend/tasks/optimization.py:69-70 | lower bound 0 or -1; upper bound the cap, else 1 or 10 |
| Optimization.MvProblemFor | backend/tasks/optimization.py:54-71 | return weight 0 iff there is a target; budget constraint iff gross_leq_1; target constraint iff a target; bounds iff long_only or a cap |
| Optimization.MvSetup | backend/tasks/optimization.py:52-71 | the statements equal `MvProblemFor` |
| Optimization.TaskProblemIsLongOnlyBudget | backend/tasks/optimization.py:172-191 | every label keeps the budget constraint and [0,1] bounds, or [0,0.2] under the cap |
| Optimization.Normalized | backend/tasks/optimization.py:84-86 | rescaled unless the sum is 0; finite weights then sum to 1 |
| Optimization.SumScaled | backend/tasks/optimization.py:86 | the sum of scaled weights is the scaled sum |
| Optimization.MvRun | backend/tasks/optimization.py:44-89 | the statements equal `MvOptimize`, so the weights sum to 1 when the solver's are finite and not all 0 |
| Optimization.MvOptimize | backend/tasks/optimization.py:44-89 | the SLSQP weights normalised, with the solver's flag and message and their return and volatility |
| Optimization.QaoaOptimize | backend/tasks/optimization.py:92-144 | k defaults to max(1, ⌊√n⌋); "QAOA ok" on success, "QAOA failed: …" otherwise |
| Optimization.Sharpe | backend/tasks/optimization.py:209 | None unless the volatility is positive |
| Optimization.OptimizationValue | backend/tasks/optimization.py:235-246 | the result reads back algo, constraint, target, insights, tickers and sharpe; a cardinality key only for QAOA/QUBO |
| Optimization.SetupFor | backend/tasks/optimization.py:151-191 | "portfolioId required", "No assets in portfolio", or the tickers, history, constraint, target and flags in order |
| Optimization.Optimize | backend/tasks/optimization.py:195-230 | MeanVariance, QAOA or QUBO; anything else "Unknown algo …" |
| Optimization.OptimizationResult | backend/tasks/optimization.py:150-246 | non-dict params raise; set-up errors first; a success only for the three algos, with a cardinality key iff not MeanVariance |
| Optimization.UnknownAlgoAfterSetup | backend/tasks/optimization.py:229-230 | an unknown algo is reported only after the set-up succeeds |
| Optimization.SucceededResultInsights | backend/tasks/optimization.py:239-244 | insights.Assets is the ticker count; a non-None cardinality only for a "Cardinality" label |
| Optimization.JobBody | backend/tasks/optimization.py:150-246 | the statements of the `try` block equal `OptimizationResult` |
| Optimization.RunOptimizationJob | backend/tasks/optimization.py:147-249 | "Running", then exactly one terminal write of the outcome |
| Browser.JsTrim | frontend/src/features/OptionsPage.tsx:92 | no JS whitespace at either end; empty exactly for all-whitespace text |
| Browser.UiTicker | frontend/src/features/OptionsPage.tsx:92 | the trimmed, upper-cased ticker without one leading "$"; it has no lower-case letter |
| Browser.BackendKeepsUiTicker | frontend/src/features/OptionsPage.tsx:92 | a cleaned ticker reaches the backend changed only by the typo table |
| Browser.ToNumber | frontend/src/features/OptionsPage.tsx:110 | `Number(v)`: numbers kept; blank text is 0 |
| Browser.NumberOr | frontend/src/features/OptionsPage.tsx:110 | `Number(v or d)`: falsy values take the default |
| Browser.JsonNumber | frontend/src/lib/api.ts:22 | NaN and ±inf arrive as None; integral values below 1e21 as int; anything else as the same float |
| Browser.JsonNumberFloatRoundTrip | frontend/src/lib/api.ts:22 | the backend's `float()` gives back every finite number sent |
| Browser.JsonNumberIntRoundTrip | frontend/src/lib/api.ts:22 | the backend's `int()` gives back every integer below 1e21 sent |
| Browser.SortedUnique | frontend/src/features/OptionsPage.tsx:74 | ascending, duplicate-free, and the same elements |
| Browser.StrikeList | frontend/src/features/OptionsPage.tsx:73-74 | exactly the call and put strikes, ascending and without duplicates |
| Browser.AscendingUnique | frontend/src/features/OptionsPage.tsx:74 | an ascending list is determined by its elements |
| Browser.StrikeListOrderFree | frontend/src/features/PortfolioDetail.tsx:78-79 | the strike list does not depend on the chain's order |
| Browser.MiddleStrike | frontend/src/features/OptionsPage.tsx:78 | one of the strikes |
| Browser.MiddleStrikeIsMedian | frontend/src/features/PortfolioDetail.tsx:80 | exactly the first ⌊n/2⌋ strikes lie below the default strike |
| Browser.RequestItems | frontend/src/features/OptionsPage.tsx:112 | eight distinct keys |
| Browser.RequestLookup | frontend/src/features/OptionsPage.tsx:112 | each key reads back the value put under it |
| Browser.RequestAccepted | backend/models/jobs.py:49-75 | every page request is accepted as a Queued job with its type, product, algo, portfolio and params |
| OptionsPage.Merge | frontend/src/features/OptionsPage.tsx:55 | `{...leg, ...patch}`: each patched key replaced; an empty patch changes nothing |
| OptionsPage.MergeIdempotent | frontend/src/features/OptionsPage.tsx:55 | merging a patch twice equals merging it once |
| OptionsPage.UpdatedLegs | frontend/src/features/OptionsPage.tsx:52-63 | leg i merged; every other leg unchanged |
| OptionsPage.UpdateTwiceIsOnce | frontend/src/features/OptionsPage.tsx:52-63 | updating twice with the same patch equals updating once |
| OptionsPage.Without | frontend/src/features/OptionsPage.tsx:51 | leg i dropped and the rest kept in order; an out-of-range index drops nothing |
| OptionsPage.RemoveUndoesAdd | frontend/src/features/OptionsPage.tsx:50-51 | removing the leg just added restores the list |
| OptionsPage.WithDefaultStrike | frontend/src/features/OptionsPage.tsx:76-79 | the middle strike only when the strike read is falsy and the chain has strikes |
| OptionsPage.ExpiryChangeSetsStrike | frontend/src/features/OptionsPage.tsx:70-100 | corrected: the new strike is the chain's middle strike, otherwise blank; nothing else changes |
| OptionsPage.StaleStrikeAsWritten | frontend/src/features/OptionsPage.tsx:77-97 | as written, a leg with a strike ends blank although the chain has strikes |
| OptionsPage.StaleStrikeExample | frontend/src/features/OptionsPage.tsx:77-97 | AAPL at 150 moved to a new expiry: blank as written, 150 corrected |
| OptionsPage.LegField | frontend/src/features/OptionsPage.tsx:110 | the backend reads the leg's ticker, expiry, option type, the strike or 0, the qty or 1, and spot when set |
| OptionsPage.ChainField | frontend/src/features/OptionsPage.tsx:108-111 | r 0.01, q 0, save_paths true, 50000 paths, 252 steps and the legs |
| OptionsPage.ChainSubmissionIsMultiLeg | frontend/src/features/OptionsPage.tsx:107-112 | with a leg, the request takes the multi-leg branch with the page's legs |
| OptionsPage.ChainParamsReadBack | frontend/src/features/OptionsPage.tsx:108-111 | the backend reads r 0.01, q 0, a true save_paths, 252 steps and 50000 paths |
| OptionsPage.LegAccepted | frontend/src/features/OptionsPage.tsx:110 | a leg passes the backend check iff its normalised ticker and expiry are non-empty and its strike is non-zero |
| OptionsPage.BlankStrikeRejected | frontend/src/features/OptionsPage.tsx:110 | a blank strike is sent as 0 and the job fails, naming the leg |
| OptionsPage.HistExtraField | frontend/src/features/OptionsPage.tsx:127-129 | sigma when given; expiry when a date is set; T only without a date |
| OptionsPage.HistField | frontend/src/features/OptionsPage.tsx:119-129 | the eight fixed keys and the optional ones |
| OptionsPage.HistoricalKeys | frontend/src/features/OptionsPage.tsx:119-129 | sigma iff given; expiry iff a date; T iff no date and given; never both; no legs, no save_paths |
| OptionsPage.HistoricalSubmissionBranch | frontend/src/features/OptionsPage.tsx:118-131 | takes the historical branch |
| OptionsPage.HistoricalMaturity | frontend/src/features/OptionsPage.tsx:128-129 | the date's year fraction, else T, else 0.5 |
| OptionsPage.OptionsForm.constructor | frontend/src/features/OptionsPage.tsx:9-36 | the initial state |
| OptionsPage.OptionsForm.AddLeg | frontend/src/features/OptionsPage.tsx:50 | appends the default leg |
| OptionsPage.OptionsForm.RemoveLeg | frontend/src/features/OptionsPage.tsx:51 | `Without` |
| OptionsPage.OptionsForm.UpdateLeg | frontend/src/features/OptionsPage.tsx:52-63 | `UpdatedLegs`; reports whether the list changed |
| OptionsPage.OptionsForm.FetchExpiries | frontend/src/features/OptionsPage.tsx:65-69 | caches the answer, or [] on failure; nothing without a ticker |
| OptionsPage.OptionsForm.FetchSpot | frontend/src/features/OptionsPage.tsx:81-88 | a found price goes on the leg, or on the form when no leg is given |
| OptionsPage.OptionsForm.OnTickerBlur | frontend/src/features/OptionsPage.tsx:91-95 | the cleaned ticker replaces the leg's, the expiries are cached and the spot is set |
| OptionsPage.OptionsForm.OnExpiryChangeAsWritten | frontend/src/features/OptionsPage.tsx:96-100 | as written: the legs become `ExpiryChangedAsWritten`; the strikes are cached |
| OptionsPage.OptionsForm.OnExpiryChange | frontend/src/features/OptionsPage.tsx:96-100 | corrected: the legs become `ExpiryChanged`; the strikes are cached |
| OptionsPage.OptionsForm.SetMaturity | frontend/src/features/OptionsPage.tsx:243 | a date clears T |
| OptionsPage.OptionsForm.SetT | frontend/src/features/OptionsPage.tsx:247 | T clears the date |
| OptionsPage.OptionsForm.Submit | frontend/src/features/OptionsPage.tsx:105-137 | European chain or historical request; nothing for other products |
| PortfolioDetail.ChainPicker.SetTicker | frontend/src/features/PortfolioDetail.tsx:179 | upper-cased, with no lower-case letter left |
| PortfolioDetail.ChainPicker.LoadExpiries | frontend/src/features/PortfolioDetail.tsx:67-72 | does nothing without a ticker; otherwise the expiries and the first of them selected |
| PortfolioDetail.ChainPicker.LoadStrikes | frontend/src/features/PortfolioDetail.tsx:75-81 | does nothing without a ticker and expiry; otherwise the strike list and its middle strike unless that is 0 |
| PortfolioDetail.SelectedStrikeIsOffered | frontend/src/features/PortfolioDetail.tsx:78-80 | a selected strike is offered by the chain and is the median |
| PortfolioDetail.ChainField | frontend/src/features/PortfolioDetail.tsx:50-55 | use_chain "true", the ticker, the expiry and the strike's text |
| PortfolioDetail.ManualFieldAsWritten | frontend/src/features/PortfolioDetail.tsx:165-172 | the non-chain entries under their input names, the strike as "K" |
| PortfolioDetail.SaveField | frontend/src/features/PortfolioDetail.tsx:196 | a ticked box sends "on"; an unticked one sends nothing |
| PortfolioDetail.ManualParamsAsWritten | frontend/src/features/PortfolioDetail.tsx:167 | without the chain: no strike, no use_chain, no legs, no ticker; K holds the typed strike |
| PortfolioDetail.ManualPricingFailsAsWritten | frontend/src/features/PortfolioDetail.tsx:167 | as written, every European non-chain job fails on `float(None)` |
| PortfolioDetail.ManualStrikeReachesBackend | frontend/src/features/PortfolioDetail.tsx:167 | corrected: the backend's strike is the typed K |
| PortfolioDetail.QField | frontend/src/features/PortfolioDetail.tsx:192 | q is sent as typed; corrected, it is absent when blank |
| PortfolioDetail.BlankQFailsAsWritten | frontend/src/features/PortfolioDetail.tsx:192 | as written, a blank q fails in `float("")` |
| PortfolioDetail.BlankQDefaults | frontend/src/features/PortfolioDetail.tsx:192 | corrected, a blank q defaults to 0 |
| PortfolioDetail.ChainPricingBranch | frontend/src/features/PortfolioDetail.tsx:50-56 | a chain job takes the chain branch with the ticker, expiry and strike picked |
| PortfolioDetail.ChainPricingBlankQFailsAsWritten | frontend/src/features/PortfolioDetail.tsx:192 | as written, a chain job with a valid instrument still fails on a blank q |
| PortfolioDetail.SavePathsFlag | frontend/src/features/PortfolioDetail.tsx:196 | the backend sees a true flag iff the box is ticked |
| PortfolioDetail.OnPrice | frontend/src/features/PortfolioDetail.tsx:47-58 | as written: an OptionPricing request defaulting to European, MonteCarlo and Normal, for the page's client and portfolio, with the params as the form sends them (strike under "K", a blank q as "") |
| PortfolioDetail.OnPriceCorrected | frontend/src/features/PortfolioDetail.tsx:47-58 | corrected: the same request with the strike under "strike" and a blank q left out |
| PortfolioDetail.ChainEntries | frontend/src/features/PortfolioDetail.tsx:50-55 | the four chain-mode assignments give the chain keys in order |
| PortfolioDetail.TargetNumber | frontend/src/features/PortfolioDetail.tsx:62 | a blank target is 0 |
| PortfolioDetail.OptimField | frontend/src/features/PortfolioDetail.tsx:62 | exactly target, constraint and portfolioId |
| PortfolioDetail.OptimParamsReadBack | frontend/src/features/PortfolioDetail.tsx:62 | the Celery task reads the constraint and portfolio; a blank target is a return floor of 0; no period |
| PortfolioDetail.ConstraintChoices | frontend/src/features/PortfolioDetail.tsx:222-228 | only the 20% cap and Cardinality=5 change the flags |
| PortfolioDetail.OnOptimize | frontend/src/features/PortfolioDetail.tsx:60-65 | a PortfolioOptimization request defaulting to MeanVariance and Normal |
| OptimPage.ParamField | frontend/src/features/OptimPage.tsx:18-21 | exactly target and constraint |
| OptimPage.PortfolioFromJob | frontend/src/features/OptimPage.tsx:18-22 | no portfolio key, so the Celery task uses the job's own, and an unselected one fails |
| OptimPage.PageConstraintChoices | frontend/src/features/OptimPage.tsx:51 | "Gross≤1" is not "Gross<=1" but gives the defaults; no choice sets a cardinality |
| OptimPage.OptimSelection.OnClientsLoaded | frontend/src/features/OptimPage.tsx:13 | the clients, and the first client with its portfolios |
| OptimPage.OptimSelection.OnClientChange | frontend/src/features/OptimPage.tsx:14 | a client's portfolios are loaded and the selection cleared |
| OptimPage.OptimSelection.Submit | frontend/src/features/OptimPage.tsx:16-24 | a PortfolioOptimization request with the page's algo |
| OptimPage.SubmitAfterClientChange | frontend/src/features/OptimPage.tsx:14-22 | submitting before a portfolio is picked fails with "portfolioId required" |
| JobDetail.Member | frontend/src/features/JobDetail.tsx:16-17 | `v?.key`: undefined for a non-object or a missing key |
| JobDetail.TruthinessDiffers | frontend/src/features/JobDetail.tsx:40 | among JSON values JS and Python disagree exactly on [], {} and NaN |
| JobDetail.SomeLegHasPaths | frontend/src/features/JobDetail.tsx:17 | true iff some leg has a truthy gridfs_id |
| JobDetail.HasPathsCases | frontend/src/features/JobDetail.tsx:15-18 | the backend's paths record shows the chart iff its file id is non-empty |
| JobDetail.ResultOrEmpty | frontend/src/features/JobDetail.tsx:40 | `result or {}` under JS truthiness |
| JobDetail.PanelsExclusive | frontend/src/features/JobDetail.tsx:41-123 | the price line and the legs table never show together |
| JobDetail.ErrorCard | frontend/src/features/JobDetail.tsx:167 | shown iff the error is non-empty |
| JobDetail.MultiLegResultView | frontend/src/features/JobDetail.tsx:41-123 | a multi-leg result shows the legs, the totals and no price line |
| JobDetail.Badge | frontend/src/features/JobDetail.tsx:186-191 | green, blue and red exactly for Succeeded, Running and Failed; gray otherwise |
| JobDetail.OtherStatusesGray | frontend/src/features/JobDetail.tsx:186-191 | Queued, Cancelled and no status are gray |
| JobDetail.Clamp | frontend/src/features/JobDetail.tsx:148-150 | the result is ≥ 1 or +inf; such values kept; the rest become 1 |
| JobDetail.ClampInput | frontend/src/features/JobDetail.tsx:148-150 | `Math.max(1, Number(text) \|\| 1)` is ≥ 1 or +inf, and a blank input gives 1 |
| JobDetail.ClampIdempotent | frontend/src/features/JobDetail.tsx:148-150 | clamping twice equals clamping once, with fixed points exactly ≥ 1 or +inf |
| JobDetail.ChartData | frontend/src/features/JobDetail.tsx:178-184 | one row per time with every series' value at that time, undefined past a series' end |
| JobDetail.BuildChartData | frontend/src/features/JobDetail.tsx:178-184 | the loops equal `ChartData` |
| JobDetail.SubsetChartComplete | frontend/src/features/JobDetail.tsx:178-184 | on a paths subset every cell is defined: line j is stored path j·stride |
| JobDetail.JobView.constructor | frontend/src/features/JobDetail.tsx:10-13 | no job; limit 50; stride 1; no paths |
| JobDetail.JobView.Rows | frontend/src/features/JobDetail.tsx:42 | no rows without paths; otherwise one row per time |
| JobDetail.JobView.SetLimit | frontend/src/features/JobDetail.tsx:148 | the clamped input |
| JobDetail.JobView.SetStride | frontend/src/features/JobDetail.tsx:150 | the clamped input |
| JobDetail.JobView.Poll | frontend/src/features/JobDetail.tsx:20-36 | the job replaced; paths fetched, kept or cleared by the previous hasPaths |

## Left out

Not modelled, each with its reason:

- **External services are parameters:** yfinance, the Redis cache, MongoDB beyond find/sort/limit/update_one, GridFS and NPZ encoding, numpy's random generator, SciPy's SLSQP, Qiskit and the QAE pricer. Their behaviour is outside this code.
- **Floating-point rounding and formatting:** finite floats are exact reals. The float32 cast of stored paths is not modelled. `toFixed(4)` in the chart and `fmtNum`/`fmtDt` on the job page are parameters or omitted.
- **Time:** timestamps are integer microseconds and the clock is a parameter. `_to_iso`/`_parse_iso` (`backend/models/jobs.py:14-39`) are lossless by assumption.
- **Sorting on stored text:** MongoDB sorts the stored ISO strings of `createdAt` and `updatedAt` (`backend/models/jobs.py:84`, `backend/routes/jobs.py:97-100`). `isoformat()` leaves out `.ffffff` when the microseconds are 0, so "…:00Z" sorts above "…:00.500000Z" although it is earlier. The model orders by time, not by text, so `Jobs.JobStore.ListJobs`, `RoutesJobs.HttpList`, `RoutesJobs.RunningJobs` and `RoutesJobs.JobsStats` do not capture that order.
- **Concurrency:** Celery's asynchronous execution, `setInterval` polling and React rendering and effects. Each page handler is one sequential step.
- **Text:** Unicode case mapping beyond ASCII.
- **Request body:** the key order of the request object. Duplicate JSON keys: `Lookup` takes the first, while `JSON.parse` keeps the last, and the pages produce none.
- **Unreachable pricers:** American, Asian and Barrier (`backend/tasks/option_pricing.py:75-160`). `run_option_job` never calls them.
- **Asset and page plumbing:** the PortfolioDetail asset modal (`onUpsert`, `yfFill`), the client and portfolio loading, and the rejected-fetch paths of `loadExpiries`/`loadStrikes`. These are I/O.
- **Plain setters:** setters with no logic of their own (product, algo, mode, client and historical field inputs) are not methods.
- OptionPricing.BlackScholes: states only the guard that yields 0.0. The closed form with `norm.cdf` is a parameter, because it is floating-point arithmetic.
- OptionPricing.EuropeanMc: the price and stderr estimates are a parameter, because they come from numpy's random generator and floating-point arithmetic. Only the shape errors, the estimates' presence and the paths record are stated. numpy's NaN estimate for fewer than two paths is part of that parameter.
- OptionsPage.OptionsForm.UpdateLeg: requires a valid index. The page only calls it with indices of rendered legs.
- JobDetail.ClampInput: states the clamp bound and the blank case only. `Number(text)` of other text is a runtime parameter.
- JobDetail.JobView.Poll: polls once. The 1.2 s timer and the cancelled interval are left out.
- **Fractional or infinite limit and stride:** JobDetail can clamp the limit or stride to a fraction or to Infinity, which the backend's `int()` would reject. The route never serves paths as written (see Findings), so this is noted, not modelled.

## Findings

| source | as written | input that shows it | evidently intended | confidence | as-written member | corrected member |
|---|---|---|---|---|---|---|
| backend/tasks/option_pricing.py:213-499 | `from utils.sanitize import normalize_ticker` inside the historical branch makes the name local to all of `run_option_job`, so its earlier uses raise UnboundLocalError | params `{"use_chain": "true", "ticker": "AAPL", "expiry": "2025-01-17", "strike": 150.0}`, or any multi-leg request | the module-level import serves every branch | high, not executed | OptionPricing.ChainRequestAsWrittenFails | OptionPricing.OptionResult |
| backend/routes/jobs.py:114-119 | `load_paths_subset(fid, …)` gets the GridFS id instead of the job id, and its dict or None result is unpacked into four names | any job with stored paths, e.g. GET /jobs/&lt;id&gt;/paths for a MonteCarlo job with save_paths | look up by job id and answer from the returned record | high, not executed | RoutesJobs.PathsNeverServedAsWritten | RoutesJobs.JobPaths |
| frontend/src/features/OptionsPage.tsx:77-97 | fetchStrikes tests the leg's strike read before onExpiryChange cleared it | leg AAPL with strike 150 moved to an expiry whose chain lists 140, 150, 160 | a new expiry gets the chain's middle strike | medium, not executed | OptionsPage.StaleStrikeExample | OptionsPage.ExpiryChangeSetsStrike |
| frontend/src/features/PortfolioDetail.tsx:167 | the strike input is named "K"; the historical branch reads "strike" (backend/tasks/option_pricing.py:412) | any European pricing job without the chain | the strike reaches the backend | high, not executed | PortfolioDetail.ManualPricingFailsAsWritten | PortfolioDetail.ManualStrikeReachesBackend |
| frontend/src/features/PortfolioDetail.tsx:192 | the optional q is sent as "" when left blank, and `float("")` raises (backend/tasks/option_pricing.py:349,414) | latent: a historical request with strike 150 and q "", which is what this page sends once the strike input of the row above is named "strike" (`OptionPricing.HistoricalBlankQFails`). As written, the page's manual jobs fail earlier on `float(None)` and its chain jobs on the unbound name. | a blank q takes the backend's default 0 | high, not executed | PortfolioDetail.BlankQFailsAsWritten | PortfolioDetail.BlankQDefaults |
