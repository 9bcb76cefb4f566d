# Personal-finance ledger, modelled and verified in Dafny

This project models the deterministic core of a personal-finance assistant:

- the immutable `Transaction` record with a strictly positive amount and a signed amount derived from its type;
- the keyword classifier that maps free text to a spending category (current copy and older copy);
- the `Ledger` aggregates: inflow, outflow, net cash flow, average burn rate and financial runway;
- the Herfindahl–Hirschman concentration index, the volatility guard, `CashFlow` and budget drift;
- the advisor's per-category spending report and its 50/30/20 budget split;
- both generations of the ledger service: recording expenses and income, the merged history, and the text report;
- the two storage backends, each with its table as an in-memory sequence of rows:
  - the Supabase expense table, with type inference and the retry without the `type` column;
  - the Google sheet, whose rows sit under a header row;
- the SQL safety gates of the data-engineer tools, their result table and the integrity report;
- the lazily caching dependency container;
- model-provider selection with Ollama base-URL normalisation;
- the director's keyword routing and quit test.

Amounts are `real`, and dates are integer timestamps in seconds. The clock, the environment, the rows a query returns and the outcome of a statement are parameters. Each module is one source file:

- `Model` is the record and its enums;
- `Categories` and `LegacyCategories` are the two classifiers;
- `FinanceLedger`, `Risk`, `Cashflow`, `Budget` and `Advisor` are the analytics;
- `Repository`, `DateOrder`, `FinanceLedgerService` and `LegacyLedgerService` are the services;
- `ExpenseStore` and `SheetStore` are the backends;
- `DataEngineer`, `DependencyContainer`, `ModelSettings` and `Director` are the remaining modules.

`Text`, `Wrappers` and `RealArith` hold the Python string operations, `Option`/`Result`, and arithmetic facts about reals.

Python's stable `list.sort(key=date, reverse=True)` is modelled by `DateOrder.SortByDateDesc`, a stable insertion sort. The model proves three things about it:

- its output is ordered by non-increasing date;
- it is a permutation of its input;
- for each date, it keeps the relative order of the entries with that date.

The source tree is midway through a refactor: `core/models.py` has no `type` field and no income category, yet the stores and the older service use both. The model therefore uses one record type, with the type field and the full category enum of `finance/models/enums.py`, for every component.

## Model

| member | source | states |
|---|---|---|
| Model.ParseType | finance/models/enums.py:4-6 | a transaction type parses from exactly the strings "income" and "expense" |
| Model.TypeRoundTrip | finance/models/enums.py:4-6 | parsing the value of a type gives the type back, and a parsed string is the value of what it parses to |
| Model.CategoryRoundTrip | finance/models/enums.py:8-17 | the nine category values parse back to their categories, and nothing else parses |
| Model.CategoryValueInjective | finance/models/enums.py:8-17 | distinct categories have distinct string values |
| Model.NewTransaction | finance/models/transaction.py:5-13 | construction succeeds exactly when amount > 0, keeping every field; otherwise it is a validation error |
| Model.NewWithDefaults | finance/models/transaction.py:8-11 | with the defaults, the id and the category are absent, and construction still requires amount > 0 |
| Model.SignedAmountSign | finance/models/transaction.py:15-17 | the signed amount is +amount for income and −amount for an expense; it is positive exactly for income, and its magnitude is the amount |
| Model.SignedAmountDependsOnTypeAndAmount | finance/models/transaction.py:15-17 | two transactions with the same type and amount have the same signed amount |
| Categories.MapToCategory | finance/services/categories.py:6-27 | the result is never Income; it is Other exactly when no cluster has a keyword in the lower-cased text; otherwise it is the first such cluster's category |
| Categories.FirstClusterSpec | finance/services/categories.py:23-27 | the scan over the ordered table returns Other exactly when no cluster hits, and otherwise returns the category of the first cluster that hits |
| Categories.CaseInsensitive | finance/services/categories.py:10 | classifying a text and its lower-cased form give the same category |
| Categories.EmptyIsOther | finance/services/categories.py:27 | the empty text is Other |
| Categories.NeverIncome | finance/services/categories.py:13-27 | no text is classified as Income |
| Categories.OtherWhenNoHit | finance/services/categories.py:23-27 | a lower-cased text that contains no keyword is Other |
| Categories.FirstWhenHitAt | finance/services/categories.py:23-25 | when cluster k is the first one with a hit, the result is cluster k's category |
| Categories.GasBillIsTransport | finance/services/categories.py:15-17 | "gas bill" is Transport: "gas" is in both transport and utilities, and transport comes first |
| Categories.BarberIsEntertainment | finance/services/categories.py:16 | "barber" is Entertainment, because the keyword "bar" is a substring |
| Categories.DinnerAtCafeIsFood | finance/services/categories.py:10-14 | "Had dinner at a cafe" is Food after lower-casing |
| Categories.FoodNameIsFood | finance/services/categories.py:14 | the category name "food" classifies as Food |
| Categories.ShoppingNameIsShopping | finance/services/categories.py:19 | the category name "shopping" classifies as Shopping |
| Categories.TransportNameIsOther | finance/services/categories.py:13-27 | the word "transport" contains no keyword and is Other |
| Categories.EntertainmentNameIsOther | finance/services/categories.py:13-27 | the word "entertainment" contains no keyword and is Other |
| Categories.UtilitiesNameIsOther | finance/services/categories.py:13-27 | the word "utilities" contains no keyword and is Other |
| Categories.HealthcareNameIsOther | finance/services/categories.py:13-27 | the word "healthcare" contains no keyword and is Other |
| Categories.EducationNameIsOther | finance/services/categories.py:13-27 | the word "education" contains no keyword and is Other |
| LegacyCategories.MapToCategory | services/categories.py:6-27 | the older classifier never gives Income, gives Other exactly when nothing hits, and otherwise gives the first hitting cluster |
| LegacyCategories.SameTable | services/categories.py:13-21 | the older keyword table is the current table, cluster for cluster |
| LegacyCategories.AgreesWithCurrent | services/categories.py:6-27 | both classifiers give the same category for every text |
| LegacyCategories.CaseInsensitive | services/categories.py:10 | the older classifier ignores case |
| LegacyCategories.EmptyIsOther | services/categories.py:27 | the older classifier maps the empty text to Other |
| FinanceLedger.SpanDays | finance/ledger.py:37-38 | the whole days between the earliest and the latest date: days·86400 ≤ span < (days+1)·86400 |
| FinanceLedger.MonthsOf | finance/ledger.py:38-39 | months is at least 1; it is 1 for spans under 30 days, and days/30 otherwise |
| FinanceLedger.AverageBurnRate | finance/ledger.py:26-41 | a ledger without expenses burns 0 |
| FinanceLedger.FinancialRunway | finance/ledger.py:44-52 | the runway is unbounded exactly when the burn rate is not positive; a finite runway is never negative |
| FinanceLedger.InflowOutflowPartition | finance/ledger.py:13-19 | inflow + outflow is the sum of all amounts |
| FinanceLedger.NetIsSignedTotal | finance/ledger.py:21-23 | net cash flow is the sum of the signed amounts |
| FinanceLedger.AmountOfIsTotalOfFiltered | finance/ledger.py:15-19 | a type's total is the total of the list filtered on that type |
| FinanceLedger.AmountOfSign | finance/ledger.py:13-19 | with valid transactions, inflow and outflow are non-negative, and each is positive exactly when some transaction has that type |
| FinanceLedger.AmountOfAppend | finance/ledger.py:13-19 | a type's total over a concatenation is the sum of its totals over the parts |
| FinanceLedger.EmptyLedger | finance/ledger.py:30-31 | the empty ledger has zero inflow, outflow, net and burn, and an unbounded runway |
| FinanceLedger.BurnRateBounds | finance/ledger.py:33-41 | 0 ≤ burn ≤ outflow; burn > 0 exactly when there is an expense; burn is the whole outflow when the expenses span under 30 days |
| FinanceLedger.BurnRateIgnoresIncome | finance/ledger.py:33-41 | two ledgers with the same expenses have the same outflow and burn rate, whatever their income |
| FinanceLedger.RunwayCases | finance/ledger.py:49-52 | the runway is unbounded exactly when there are no expenses; otherwise it is max(net/burn, 0), so it is 0 when spending reaches income |
| FinanceLedger.OneExpenseOutflow | finance/ledger.py:17-19 | a ledger of one 100.0 expense has outflow 100.0 and inflow 0 |
| Risk.ConcentrationHHI | finance/risk.py:12-18 | the index is 0 when the amounts sum to 0; otherwise HHI·total² equals the sum of squared amounts |
| Risk.ShareSquaresTimes | finance/risk.py:17-18 | the sum of squared shares a/total, times total², is the sum of squared amounts |
| Risk.HHIBounds | finance/risk.py:12-18 | for n positive amounts, 1/n ≤ HHI ≤ 1 |
| Risk.SingleAmountHHI | finance/risk.py:17-18 | one positive amount has HHI 1 |
| Risk.EqualAmountsHHI | finance/risk.py:17-18 | n equal positive amounts have HHI 1/n |
| Risk.HHIPermutation | finance/risk.py:13-18 | the index does not depend on the order of the amounts |
| Risk.HHIScaling | finance/risk.py:13-18 | scaling every amount by a positive factor leaves the index unchanged |
| Risk.SpendingVolatility | finance/risk.py:6-9 | fewer than two amounts give 0; otherwise the result is the sample standard deviation |
| Cashflow.NewCashFlow | finance/cashflow.py:5-9 | construction succeeds exactly when both flows are ≥ 0, keeping them; otherwise it is a validation error |
| Cashflow.NetBounds | finance/cashflow.py:11-13 | −outflow ≤ net ≤ inflow; net + outflow = inflow; net ≥ 0 exactly when inflow ≥ outflow |
| Budget.BudgetDrift | finance/budget.py:2-5 | the drift is 0 for a non-positive plan; otherwise drift·planned = actual − planned |
| Budget.DriftSign | finance/budget.py:5 | for a positive plan, the drift is zero, positive or negative exactly when actual equals, exceeds or falls short of the plan |
| Budget.DriftAtLeastMinusOne | finance/budget.py:5 | with a positive plan and non-negative actual, the drift is ≥ −1, with −1 exactly when nothing was spent |
| Advisor.AnalyzeSpending | services/advisor.py:6-34 | an empty list gives the "Start recording" report; a missing category fails with AttributeError, exactly then; otherwise the report is the category analysis |
| Advisor.TotalsKeys | services/advisor.py:19-22 | the per-category dict has a key exactly for each category that occurs |
| Advisor.TotalsAreCategorySums | services/advisor.py:19-22 | each per-category total is the sum of that category's amounts |
| Advisor.TotalsSumToTotal | services/advisor.py:18-22 | the per-category totals, in first-seen order, add up to the total spent |
| Advisor.FirstMaxIndex | services/advisor.py:24 | the chosen key has the largest total, and every key before it has a strictly smaller one: the first maximum wins ties, as `max` does |
| Advisor.FirstMaxIsMax | services/advisor.py:24 | the first-maximum key's total is at least every category's total in the map |
| Advisor.AnalysisCategories | services/advisor.py:18-28 | the report's total, category keys and sums are as above; its key order is the dict's first-seen order, without repeats |
| Advisor.AnalysisTop | services/advisor.py:24-33 | the top category has the largest total and is the first to reach it in dict order; there are two recommendations, and the first names the top category |
| Advisor.GetBudgetAdvice | services/advisor.py:37-50 | needs, wants and savings are 1/2, 3/10 and 1/5 of income and add up to it; there are three advice lines with those amounts |
| Advisor.BudgetOrder | services/advisor.py:43-45 | for non-negative income, 0 ≤ savings ≤ wants ≤ needs ≤ income |
| Repository.MemoryRepository.Add | finance/repositories/transaction_repository.py:9-10 | adding appends the transaction and returns it |
| Repository.MemoryRepository.ListByCategory | finance/repositories/transaction_repository.py:20-23 | the listing is the stored transactions filtered on that category, in stored order: each of that category as often as it is stored, and nothing else |
| Repository.WithCategoryCounts | finance/repositories/transaction_repository.py:20-23 | the filter keeps every record of the category with its multiplicity and is a sub-multiset of its input |
| DateOrder.SortByDateDescSpec | finance/services/ledger.py:55 | the sort output is ordered by non-increasing date, is a permutation of its input, and keeps the input order among equal dates |
| DateOrder.SortConcatOnDate | finance/services/ledger.py:54-55 | after sorting expenses + income, the entries of each date are that date's expenses, then its income, in their listed order |
| FinanceLedgerService.CalculateTotalSpending | finance/services/ledger.py:58-60 | the spending total is the total of the expense transactions |
| FinanceLedgerService.CalculateTotalIncome | finance/services/ledger.py:62-64 | the income total is the total of the income transactions |
| FinanceLedgerService.TotalsPartition | finance/services/ledger.py:58-64 | spending + income is the total of all amounts, and they equal the Ledger's outflow and inflow |
| FinanceLedgerService.FormatHistoryReport | finance/services/ledger.py:66-90 | no transactions gives "No records found for …"; otherwise the report is three header lines, one entry per transaction in order, and a five-line footer of Ledger inflow, outflow and net |
| FinanceLedgerService.ReportNetIsIncomeMinusSpending | finance/services/ledger.py:80-88 | the footer's net line is its income line minus its spending line, and those are the service's two totals |
| FinanceLedgerService.NoRecordsExamples | finance/services/ledger.py:67-69 | the empty report names "all categories" without a filter, and the category's value with one |
| FinanceLedgerService.IncomeDescription | finance/services/ledger.py:32 | the description is the source alone when the description is empty, and "source: description" otherwise |
| FinanceLedgerService.LedgerService.constructor | finance/services/ledger.py:9-11 | the service keeps the two repositories it is given |
| FinanceLedgerService.LedgerService.RecordExpense | finance/services/ledger.py:13-24 | a positive amount appends an expense dated now to the expense repository only; otherwise nothing is stored and a validation error is returned |
| FinanceLedgerService.LedgerService.RecordIncome | finance/services/ledger.py:26-40 | a positive amount appends an Income-category income record to the income repository only; otherwise a validation error |
| FinanceLedgerService.LedgerService.GetTransactionHistory | finance/services/ledger.py:42-56 | the Income filter lists the income repository; another category is exactly the expense repository's `list_by_category` answer, which holds exactly the expenses of that category; no filter gives the date-sorted merge of expenses and income |
| FinanceLedgerService.MergedHistory | finance/services/ledger.py:51-56 | the merged history is sorted by date, holds exactly the expenses and the income, and keeps expenses before income on equal dates |
| LegacyLedgerService.LegacyIncomeDescription | services/ledger.py:30 | the older service always writes "source: description" |
| LegacyLedgerService.EmptyDescriptionDiffers | services/ledger.py:30 | with an empty description, the older service stores "source: " while the newer one stores "source" |
| LegacyLedgerService.EntryLines | services/ledger.py:56-60 | one entry line per expense, in order; a missing category fails with AttributeError, exactly then |
| LegacyLedgerService.FormatHistoryReport | services/ledger.py:49-70 | the empty case as in the newer service; a missing category is an AttributeError; otherwise header, entries, and a footer whose net is income − spending |
| LegacyLedgerService.SameFooterAsLedger | services/ledger.py:62-68 | the older footer equals the footer built from the Ledger aggregates |
| LegacyLedgerService.LegacyLedgerService.constructor | services/ledger.py:7-8 | the service keeps the database it is given |
| LegacyLedgerService.LegacyLedgerService.RecordTransaction | services/ledger.py:10-21 | a non-positive amount is refused before the store is touched; an unconfigured store raises ValueError; a store error propagates and nothing is stored; otherwise one expense row is appended |
| LegacyLedgerService.LegacyLedgerService.RecordIncome | services/ledger.py:23-34 | as above (validation error, ValueError, a store error propagated with nothing stored), otherwise appending an Income-category income row whose description is "source: description" |
| LegacyLedgerService.LegacyLedgerService.GetTransactionHistory | services/ledger.py:36-39 | it is exactly the store's category listing or full listing, so it fails exactly when that does; a result is newest first, holds only valid records, and holds exactly the stored rows of that category, or all rows |
| ExpenseStore.InferType | data/database.py:54-63 | a stored type wins; without one, a row is income exactly when its category is income |
| ExpenseStore.InferTypeRoundTrip | data/database.py:54-63 | a record stored with its type reads back with that type; stored without it, the type survives exactly when income coincides with the Income category |
| ExpenseStore.ListingMembers | data/database.py:65-78 | the listing is sorted by date descending and holds exactly the converted rows |
| ExpenseStore.CategoryListing | data/database.py:80-93 | the category listing is sorted and holds exactly the rows of that category |
| ExpenseStore.DateRangeListing | data/database.py:95-118 | the range listing is sorted and holds exactly the rows whose date lies within the given bounds, each bound being optional and inclusive |
| ExpenseStore.AddedRowListed | data/database.py:26-52 | a row just added appears in its category's listing with its description, amount and id |
| ExpenseStore.RowTotalIsInflowPlusOutflow | data/database.py:120-123 | the total "spending" sums every row, income included: it is inflow + outflow |
| ExpenseStore.ExpenseDatabase.constructor | data/database.py:12-20 | the store starts with the given configuration and rows, and no requests |
| ExpenseStore.ExpenseDatabase.Insert | data/database.py:35-37 | one insert request: an injected fault, or a missing type column while a type is sent, fails and changes nothing; otherwise the row is appended with the next id |
| ExpenseStore.ExpenseDatabase.AddExpense | data/database.py:26-52 | unconfigured gives ValueError; no category gives AttributeError; a missing type column is retried once without the type; the id is set only when rows come back |
| ExpenseStore.BuildRecords | data/database.py:68-78 | building a record per row fails, with the amount's validation error, exactly when some row's amount is ≤ 0; otherwise the records are the converted rows, all valid |
| ExpenseStore.ExpenseDatabase.Select | data/database.py:66-78 | a select fails exactly when the store is unconfigured (ValueError), answers with a fault, or returns a row whose amount is refused; otherwise the converted rows newest first, all valid |
| ExpenseStore.ExpenseDatabase.GetAllExpenses | data/database.py:65-78 | fails exactly when unconfigured, faulty, or some stored amount is ≤ 0; otherwise all rows, converted, newest first |
| ExpenseStore.ExpenseDatabase.GetExpensesByCategory | data/database.py:80-93 | fails exactly when unconfigured, faulty, or a row of that category has an amount ≤ 0; otherwise that category's rows, newest first |
| ExpenseStore.ExpenseDatabase.GetExpensesByDateRange | data/database.py:95-118 | fails exactly when unconfigured, faulty, or a row within the bounds has an amount ≤ 0; otherwise the rows within the bounds, newest first |
| ExpenseStore.ExpenseDatabase.GetTotalSpending | data/database.py:120-123 | fails exactly when unconfigured or faulty (no record is built, so no amount is refused); otherwise the sum of all raw amounts, 0 for an empty table |
| ExpenseStore.ExpenseDatabase.ClearAll | data/database.py:125-128 | unconfigured gives ValueError; a fault is returned and nothing is deleted; otherwise only rows with id 0 remain |
| SheetStore.Records | data/gsheet.py:57-66 | one expense per data row below the header, in sheet order |
| SheetStore.SortKeepsTotal | data/gsheet.py:74-76 | sorting does not change the total |
| SheetStore.WithCategorySorted | data/gsheet.py:70-72 | filtering a date-sorted list keeps it sorted |
| SheetStore.GoogleSheetDatabase.constructor | data/gsheet.py:10-34 | the store is connected exactly when configured and reachable; a new sheet holds only the header row |
| SheetStore.GoogleSheetDatabase.AddExpense | data/gsheet.py:40-53 | not connected gives ValueError; otherwise a row with id = now is appended under the header, and the returned expense carries that id |
| SheetStore.GoogleSheetDatabase.GetAllExpenses | data/gsheet.py:55-68 | not connected gives ValueError; it fails with the amount's validation error exactly when some data row's amount is ≤ 0; otherwise the data rows as valid expenses, sorted by date descending |
| SheetStore.GoogleSheetDatabase.GetExpensesByCategory | data/gsheet.py:70-72 | fails exactly when the full listing fails; otherwise the sorted listing filtered on the category, still sorted |
| SheetStore.GoogleSheetDatabase.GetTotalSpending | data/gsheet.py:74-76 | fails exactly when the full listing fails; otherwise the sum of the data rows' amounts, positive exactly when there is a data row, and 0 when only the header is present |
| SheetStore.TotalOfValid | data/gsheet.py:74-76 | a total of valid records is non-negative, and positive exactly when there is a record |
| SheetStore.GoogleSheetDatabase.ClearAll | data/gsheet.py:78-82 | clearing leaves exactly the header row |
| DataEngineer.RunSqlQuery | agents/data_engineer.py:19-39 | a query naming a blocked word gets the SECURITY ALERT and takes no connection; otherwise no rows give "No results found." and rows give the table text |
| DataEngineer.FormatRows | agents/data_engineer.py:33-38 | the loop builds the column names, the dashed rule and one line per row, each ending in a newline |
| DataEngineer.TableShape | agents/data_engineer.py:34-38 | the table starts with the column names and fifty dashes, and every row's values occur in it as a line |
| DataEngineer.BlockedWordRefused | agents/data_engineer.py:24-25 | any of drop/delete/update/insert/alter/create anywhere in the lower-cased query refuses it |
| DataEngineer.UpdateRefused | agents/data_engineer.py:24 | every query mentioning "update", in any case, is refused |
| DataEngineer.SelectAllPasses | agents/data_engineer.py:24 | "SELECT * FROM expenses" passes the read gate |
| DataEngineer.DropTableRefused | agents/data_engineer.py:24 | "DROP TABLE expenses" is refused on the read path |
| DataEngineer.CreatedAtRefused | agents/data_engineer.py:24 | "SELECT created_at FROM expenses" is refused, because "create" is a substring of "created_at" |
| DataEngineer.ExecuteDdl | agents/data_engineer.py:43-58 | a denylisted query gets the SAFETY BLOCK; otherwise success or "❌ SQL Error: " and the message |
| DataEngineer.DdlIgnoresJustification | agents/data_engineer.py:43-51 | the justification never changes the answer, and a blocked query gets the block whatever the database would do |
| DataEngineer.DdlAnswerKind | agents/data_engineer.py:50-58 | the answer starts with ✅ exactly when the statement was allowed and ran; errors come back as text, never raised |
| DataEngineer.DropIfExistsPasses | agents/data_engineer.py:49-50 | "DROP TABLE IF EXISTS expenses" is not blocked, since the match is literal |
| DataEngineer.IncomeLookalikeBlocked | agents/data_engineer.py:49-50 | "drop table income_2024" is blocked, since "drop table income" is a substring |
| DataEngineer.ExecuteDml | agents/data_engineer.py:62-71 | the DML answer is "✅ DML Executed: " and the status, or the SQL error text |
| DataEngineer.DmlUnguarded | agents/data_engineer.py:62-71 | the DML path has no denylist: any statement that runs is reported as executed |
| DataEngineer.ValidateFinancialIntegrity | agents/data_engineer.py:97-121 | the report is the heading, then the income line, then the expense line |
| DataEngineer.IntegritySections | agents/data_engineer.py:110-119 | each section is the OK line exactly when its count is ≤ 0 |
| DataEngineer.WarningCarriesCount | agents/data_engineer.py:111 | the income warning shows the count right after its prefix, in decimal digits that read back as the count |
| DependencyContainer.Container.constructor | core/container.py:11-12 | both caches start empty |
| DependencyContainer.Container.GetFinanceDependencies | core/container.py:15-24 | a cached object is returned as is; an empty cache gets a newly built object, which is then cached; the pool is untouched |
| DependencyContainer.Container.ResetDependencies | core/container.py:27-31 | only the finance cache is emptied; the pool is kept |
| DependencyContainer.Container.GetDbPool | core/container.py:34-42 | a cached pool is returned; without a URL, ValueError and the pool stays absent; otherwise a new open pool on that URL is cached |
| DependencyContainer.Container.GetDataDependencies | core/container.py:45-47 | wraps the pool from GetDbPool: the cached pool, or on a first call with a URL a fresh open pool on that URL; without a URL it passes on the ValueError and caches nothing |
| DependencyContainer.Container.Close | core/container.py:50-53 | an open pool is closed and forgotten; without a pool nothing changes |
| DependencyContainer.CachingScenario | core/container.py:19-31 | two gets without a reset return the same object; a get after a reset returns a different one |
| DependencyContainer.PoolScenario | core/container.py:34-53 | a failed pool request caches nothing; the pool opened later is reused until close, which closes it |
| ModelSettings.LoadSettings | core/settings.py:9-14 | each setting is its variable or its default; the provider is lower-cased; an empty environment gives ollama, llama3.2, the local /v1 endpoint, gpt-4o and gemini-2.5-flash |
| ModelSettings.Provider | core/settings.py:29 | a non-empty override wins, lower-cased; otherwise the configured provider |
| ModelSettings.NormalizeBaseUrl | core/settings.py:34-36 | a URL naming ollama.com, in any case, that does not end in "/v1" loses its trailing '/' and gains "/v1"; any other URL is kept |
| ModelSettings.GetModel | core/settings.py:24-46 | "ollama" gives the Ollama chat model on the normalised URL; "openai" gives "openai:" + model; every other provider gives the Google model |
| ModelSettings.GoogleFallback | core/settings.py:31-32 | "gemini", "google" and every unrecognised provider give the Google model |
| ModelSettings.OverrideWins | core/settings.py:29 | with a non-empty override, the configured provider makes no difference |
| ModelSettings.ProviderCaseInsensitive | core/settings.py:29 | provider names are matched in any case |
| ModelSettings.NormalizeIdempotent | core/settings.py:35-36 | normalising twice is normalising once |
| ModelSettings.NormalizedOllamaEndsInV1 | core/settings.py:35-36 | a normalised ollama.com URL ends in "/v1" |
| ModelSettings.OtherUrlsUntouched | core/settings.py:35 | a URL not naming ollama.com is passed through |
| ModelSettings.TrailingSlashDoublesSuffix | core/settings.py:35-36 | "https://ollama.com/v1/" becomes "https://ollama.com/v1/v1", because the suffix test runs before the strip |
| ModelSettings.BareOllamaGainsSuffix | core/settings.py:35-36 | "https://ollama.com" becomes "https://ollama.com/v1" |
| ModelSettings.DefaultModel | core/settings.py:9-11 | with no environment, the model is Ollama's llama3.2 on http://localhost:11434/v1 |
| Director.RouteRequest | run_director.py:41-55 | the data engineer exactly when the lower-cased request contains sql, schema, table, database or migration; the strategy board otherwise |
| Director.RouteCaseInsensitive | run_director.py:43 | routing a request and its lower-cased form agree |
| Director.ShowSchemaRoutesToData | run_director.py:43 | "Show SCHEMA" goes to the data engineer |
| Director.PortfolioRoutesToData | run_director.py:43 | "Is my portfolio stable?" goes to the data engineer, through "table" in "stable" |
| Director.SpendingQuestionRoutesToStrategy | run_director.py:51-55 | "How much did I spend?" goes to the strategy board |
| Director.QuitExamples | run_director.py:73-74 | "QUIT" and "Exit" end the loop; " quit" and "quit " do not, since input is not trimmed |

## Left out

- Floating point: amounts are exact reals, so rounding, `%.2f`/`:>10.2f` rendering, `{…:12}` padding and `round` are not modelled. Report lines carry the values instead of their rendered text.
- Risk.SpendingVolatility: `statistics.stdev` (a square root) is a parameter, so only the fewer-than-two guard is proved.
- Dates are integer timestamps: `strftime`, `isoformat`, `fromisoformat` and the "Z" replacement are not modelled, and the day count assumes whole seconds.
- Case mapping covers ASCII letters only; Python's full Unicode `lower`/`upper` is not modelled.
- The remote services are not modelled: Supabase/PostgREST, gspread, asyncpg and credential loading. Each table is a sequence of rows, and each network or API failure is an injected `fault` value. The store is assumed to return rows in insertion order before its date sort.
- ExpenseStore.ExpenseDatabase.AddExpense: only the PGRST204 retry path is modelled in detail; the content of other API error answers is an opaque `fault`.
- Unknown category or type strings: a stored row holds a `Category` and an optional `TxType`, so an unknown or NULL category or type string, on which `ExpenseCategory(...)` or `TransactionType(...)` raises, cannot be stored; the listings' failure on such rows is not modelled.
- SheetStore.ToTransaction: the sheet stores no type column, so every row reads back as an expense, an income row written through `add_expense` included; the sheet's record type has no type field.
- SheetStore.GoogleSheetDatabase.constructor: how the connection is opened (credentials file, worksheet lookup, printing the error) is reduced to the two flags `configured` and `connects`.
- `datetime.now()` is a `now` parameter. The sheet store's id is `now` itself, without the `int(timestamp())` conversion.
- `inspect_table_schema` in agents/data_engineer.py and its output are not modelled; it runs a fixed, parameterised query.
- The read path's final "Query executed." return is unreachable (a fetch returns rows or none) and is not modelled.
- `str(val)` of column values is taken as given: each row arrives with its values already rendered.
- The container's class attributes are fields of one `Container` object. The lack of locking is not modelled, and neither is the pool's own closing protocol beyond a `closed` flag.
- `create_finance_agent`, the LLM agents, the prompts, the UI, the CLIs and the director's interactive I/O loop are not part of this model; only the routing rule and the quit test are.
- The repository interface's `list_by_type`, `list_by_date_range`, `total_amount` and `clear` are not used by the services and are not part of this model.
- The model objects of the LLM framework are tags (`Google`, `OllamaChat`, `OpenAIName`); the Ollama API key is not modelled.
- Immutability of `Transaction`, `Ledger` and `CashFlow` needs no proof: they are Dafny datatypes, so they are values.
