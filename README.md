# Helpdesk core, modelled in Dafny

This project models the deterministic core of a Flask helpdesk application
and proves properties of that model. The application has these parts:

- **Ticket-prediction service** (`TicketPredictor`):
  - a text normaliser;
  - a rule for choosing training data (real resolved tickets, or 36 synthetic rows);
  - training and loading of four model artifacts, behind an all-or-nothing gate;
  - a lazy "load, else train, else default" initialiser;
  - post-processing: a clamp to [1, 168] hours, a rounding, a confidence band and an hours/days display.
- **SQL builders** (ticket list, ticket update, dashboard update, export query). Each grows a list of SQL clauses and a list of parameters in step, and whitelists the sort column.
- **Gap filling** for the daily created/resolved time series.
- **Request rules** of the HTTP handlers:
  - ticket permissions and validation;
  - login and registration;
  - prediction endpoints;
  - dashboard routing and counts;
  - the browser's form validation and notification lookups.

How the source is modelled:

- **Control structure.** The source's own control structure is kept.
  - Handlers that are guard chains become functions returning an outcome datatype.
  - The predictor is a `class` whose fields are assigned step by step.
  - The SQL builders are methods that grow two sequences.
  - The time series, the batch prediction, the column widths and the form validation are loops with invariants.
- **Oracles.** The machine-learning library, the database, password hashing and the clock are parameters.
  - A learned model is a function from text or features to `Option`, where `None` means the library raised.
  - A query that raises is `None`.
  - The clock is a date or a timestamp argument.
- **SQL text.** It is a sequence of literal pieces and `Hole`s, one `Hole` per `?`. Most proofs about SQL state that placeholders and parameters stay aligned: `Holes(query) == |params|`.

Modules:

- `Wrappers`: an `Option` type.
- `PyText`: Python whitespace and `strip`.
- `TextNormalizer`: `preprocess_text`.
- `SampleData`: `generate_sample_data`.
- `TrainingData`: `load_data_from_db` and the cleaning step of `train_models`.
- `Rounding`: `round`.
- `Predictor`: the `TicketPredictor` class.
- `Sql`: fragments, clauses and `SET` lists.
- `TicketQueries`: `Ticket.get_all` and `Ticket.update`.
- `Analytics`: the analytics routines and `CustomDashboard.update`.
- `Export`: `ExcelExporter`.
- `Tickets`: the ticket handlers.
- `PredictionRoutes`: the prediction endpoints.
- `Auth`: login and registration.
- `App`: index and the dashboards.
- `ClientValidation`: the browser's `main.js` functions.

Behaviours of the code that its docstrings, defaults or neighbouring code would not lead one to expect, kept as written:

- **Training failures escape.** `predict_category` and `predict_resolution_time` call the initialiser outside their `try` blocks. So an exception raised by training escapes them, and the HTTP handlers answer 500. The model returns `Raised` in that case, rather than the default answer.
- **`Resolved` vs `resolved`.** The training loader, `model_status` and the export query compare the status with `'Resolved'`. The ticket code writes and compares `'resolved'`. Both spellings are kept as written (`App.CapitalisedStatusNotCounted`).
- **Negative durations.** Durations loaded from the database are not checked, so a training row can have negative hours (`TrainingData.NegativeHoursFromDatabase`).
- **Unreachable guard.** The `len(df) == 0` guard in `train_models` can never fire, because `load_data_from_db` returns at least 10 rows (`TrainingData.LoadAtLeastTen`).
- **Admin's empty assignee on create.** When an admin creates a ticket with an empty "assigned to" field, `''` is stored as text, not as NULL. The model keeps this (`Tickets.AdminEmptyAssigneeStoredAsText`).

## Model

| member | source | states |
|---|---|---|
| PyText.Strip | tickets.py:31-32 | the result is a slice of the input, everything cut off before and after it is Python whitespace, and it is empty or has no whitespace at either end |
| PyText.BlankIffAllSpace | predictions.py:28-29 | `not s.strip()` holds iff every character of `s` is whitespace |
| TextNormalizer.Preprocess | ml_predictions.py:28-42 | missing text gives `""`; any other result is only lower-case ASCII letters and single interior spaces, with no leading or trailing space |
| TextNormalizer.Lowered | ml_predictions.py:34 | no upper-case ASCII letter survives `lower()` |
| TextNormalizer.Filtered | ml_predictions.py:37 | the regex keeps only ASCII letters and whitespace, and never lengthens the text |
| TextNormalizer.FilterDeletes | ml_predictions.py:37 | a removed character is deleted, not replaced, so its neighbours join |
| TextNormalizer.HyphenMerges | ml_predictions.py:37-40 | `"e-mail"` normalises to `"email"` |
| TextNormalizer.WordsOfJoin | ml_predictions.py:40 | splitting a space-joined list of words gives the words back |
| TextNormalizer.JoinWordsOfNormalized | ml_predictions.py:40 | joining the split of a normalised text gives the text back |
| TextNormalizer.FilteredIdentity | ml_predictions.py:37 | the regex leaves text made only of ASCII letters and whitespace unchanged |
| TextNormalizer.NormalizedIsFixpoint | ml_predictions.py:33-40 | a normalised text is left unchanged by `preprocess_text` |
| TextNormalizer.PreprocessIdempotent | ml_predictions.py:28-42 | applying `preprocess_text` twice equals applying it once |
| TextNormalizer.NoLettersGivesEmpty | ml_predictions.py:37-40 | a text with no letters normalises to `""` |
| TextNormalizer.LeadingLetterNonEmpty | ml_predictions.py:37-40 | a text starting with a letter never normalises to `""` |
| SampleData.Phrases | ml_predictions.py:50-75 | each category has exactly six phrases |
| SampleData.GenerateSampleData | ml_predictions.py:77-110 | the nested loops produce exactly the reference row sequence `SampleRows` |
| SampleData.SampleShape | ml_predictions.py:46-110 | 36 rows; rows 6k..6k+5 carry category k, in the fixed category order, and no others do |
| SampleData.EveryCategoryPresent | ml_predictions.py:46-110 | every one of the six categories occurs |
| SampleData.SampleHoursAtLeastOne | ml_predictions.py:101 | every synthetic resolution time is at least 1 hour |
| SampleData.CategoriesDistinct | ml_predictions.py:46 | the six category names are pairwise distinct |
| TrainingData.OrEmpty | ml_predictions.py:134 | a missing title or description reads as `""` |
| TrainingData.ResolvedRows | ml_predictions.py:116-121 | exactly the rows whose status is `'Resolved'` are selected |
| TrainingData.ResolvedAll | ml_predictions.py:116-121 | when every row is resolved, the selection is the whole table |
| TrainingData.LoadSelection | ml_predictions.py:112-140 | the synthetic data is used when the query raises or returns fewer than 10 rows; otherwise row i has text `title + " " + description`, the category and priority of database row i, and hours equal to (updated − created seconds) / 3600 |
| TrainingData.LoadDataFromDb | ml_predictions.py:112-140 | the loaded data is the synthetic table, or else one example per resolved database row, at least 10 of them |
| TrainingData.LoadAtLeastTen | ml_predictions.py:124-140 | the loaded data always has at least 10 rows |
| TrainingData.NegativeHoursFromDatabase | ml_predictions.py:129-131 | a table of 10 resolved tickets exists whose loaded duration is negative |
| TrainingData.NonEmptyRows | ml_predictions.py:154-157 | the kept rows are exactly the cleaned rows whose text is non-empty, and that text is normalised |
| Rounding.Round | ml_predictions.py:300 | the rounded value is within half a unit of the last digit from the input |
| Rounding.RoundWithin | ml_predictions.py:298-300 | rounding keeps a value between two bounds that are whole units of the last digit |
| Predictor.SavedAllWritable | ml_predictions.py:209-218 | when every artifact path is writable, each of the four artifacts is stored under its name |
| Predictor.SavedKeeps | ml_predictions.py:209-218 | saving leaves every file other than the four artifacts as it was |
| Predictor.Saved | ml_predictions.py:209-218 | saving never loses a file, and adds only writable paths |
| Predictor.MaxOf | ml_predictions.py:270 | the confidence is one of the class probabilities and no probability is larger |
| Predictor.Clamp | ml_predictions.py:298 | the result lies in [1, 168]: a value inside is kept, a value below becomes 1 and a value above becomes 168 |
| Predictor.RoundTenthInHours | ml_predictions.py:298-300 | rounding a clamped value to a tenth stays in [1, 168] |
| Predictor.CategoryFromModelsMeaning | ml_predictions.py:255-276 | the answer is ("General Inquiry", 0.0), or else the decoded label of the classifier's prediction together with its largest probability; the confidence is in [0, 1]; empty cleaned text gives the default |
| Predictor.ResolutionInRange | ml_predictions.py:285-304 | whatever the regressor returns, the predicted time is in [1, 168]; empty cleaned text gives 24 |
| Predictor.CategoryFromModels | ml_predictions.py:255-276 | empty cleaned text gives ("General Inquiry", 0.0); a non-zero confidence needs a non-empty text and all three of vectorizer, classifier and encoder |
| Predictor.ResolutionFromModels | ml_predictions.py:285-304 | empty cleaned text, or a missing vectorizer or regressor, gives the default 24 hours |
| Predictor.FitAll | ml_predictions.py:163-201 | with fewer than 2 rows the test split raises, so training fails |
| Predictor.LevelOf | ml_predictions.py:323 | High iff confidence > 0.7, Medium iff 0.5 < confidence <= 0.7, Low iff confidence <= 0.5 |
| Predictor.LevelMonotone | ml_predictions.py:323 | a higher confidence never gets a lower band |
| Predictor.DisplayOf | ml_predictions.py:312-316 | the display is in hours iff the time is under 24 hours |
| Predictor.DisplayRoundTrip | ml_predictions.py:312-316 | the displayed quantity converts back to the same number of hours; a display in days shows at least one day |
| Predictor.InsightsOf | ml_predictions.py:318-324 | the insight record carries the category and hours unchanged, with the confidence band and display of those values |
| Predictor.PercentInRange | ml_predictions.py:320 | a confidence in [0, 1] is reported as a percentage in [0, 100] |
| Predictor.TextsOf | ml_predictions.py:164 | the feature texts are the cleaned texts, row by row |
| Predictor.LabelsOf | ml_predictions.py:173 | the category labels are the rows' categories, row by row |
| Predictor.HoursOf | ml_predictions.py:189 | the regression targets are the rows' hours, row by row |
| Predictor.TicketPredictor.constructor | ml_predictions.py:16-21 | no model is set and `models_trained` is false |
| Predictor.TicketPredictor.SaveModels | ml_predictions.py:209-218 | the store becomes `Saved(old files, the four artifacts, writable paths)`: the artifacts are written in order until the first failing write, whose error is swallowed |
| Predictor.TicketPredictor.LoadModels | ml_predictions.py:220-246 | true iff all four files exist and unpickle; a missing file changes nothing; on success the four fields hold the four unpickled objects and `models_trained` is true; otherwise `models_trained` is untouched |
| Predictor.TicketPredictor.FitModels | ml_predictions.py:163-201 | succeeds iff every fit succeeds and there are at least 2 rows to split, and then the four fields hold exactly the fitted objects; with fewer rows the split raises after the encoder is fitted and before any classifier is assigned; `models_trained` is untouched either way |
| Predictor.TicketPredictor.TrainModels | ml_predictions.py:142-207 | no usable row gives False with nothing changed; True iff rows exist and every fit succeeds, then all four fields are set and `models_trained` is true even if saving fails; it raises exactly when rows exist and some fit fails (`TrainingRaises`), and then `models_trained` and the store are as they were |
| Predictor.TicketPredictor.EnsureModels | ml_predictions.py:250-253 | already trained means ready with nothing changed; otherwise, when all four files load, ready with the loaded objects and the store untouched; when they do not, not ready iff no training row exists, ready iff every fit succeeds, and then the fitted objects are held and saved; it raises exactly when it was untrained, nothing loads, rows exist and a fit fails (`WouldRaise`); after a normal return the predictor is settled, so a later call changes nothing; ready iff `models_trained` afterwards |
| Predictor.TicketPredictor.PredictCategory | ml_predictions.py:248-276 | the answer is `CategoryFromModels` of the fields once ready, and the default when not ready; it answers without models exactly when none could be loaded and there is no training row, and then the store is untouched; it raises exactly when it was untrained, nothing loads, rows exist and a fit fails; after a normal return a second call sees the same models; the confidence is in [0, 1]; empty cleaned text gives the default |
| Predictor.TicketPredictor.PredictResolutionTime | ml_predictions.py:278-304 | the answer is `ResolutionFromModels` of the fields once ready and 24 when not ready; it is in [1, 168], and 24 for empty cleaned text; it answers without models exactly when none could be loaded and there is no training row; it raises exactly when it was untrained, nothing loads, rows exist and a fit fails; after a normal return a second call sees the same models |
| Predictor.TicketPredictor.GetPredictionInsights | ml_predictions.py:306-324 | the insights are `InsightsOf` the category and hours that the final models give for the cleaned description (`CurrentInsights`), or the defaults when no model could be made; hours in [1, 168], percentage in [0, 100]; it raises exactly when it was untrained, nothing loads, rows exist and a fit fails; already trained, it never raises and changes nothing |
| Predictor.TicketPredictor.CurrentInsights | ml_predictions.py:306-324 | the insights the held models give for a cleaned text: the defaults when untrained or when the text is empty; hours always in [1, 168] with the display for those hours |
| Sql.Holes | ticket_models.py:54-60 | a fragment has no placeholder iff it is all literal text |
| Sql.HolesJoin | ticket_models.py:118 | joining fragments with a literal separator adds up their placeholders |
| Sql.AlignedClauses | ticket_models.py:54-114 | clauses that each bind as many values as they have placeholders bind, together, as many as they have |
| Sql.UpdateStatementHoles | ticket_models.py:189-193 | an UPDATE with n assignments has n + 1 placeholders (the last is the id) |
| Sql.PartsHoles | ticket_models.py:164-190 | n `column = ?` assignments hold n placeholders |
| Sql.AddIfSet | ticket_models.py:167-187 | an optional assignment appends its `column = ?` and its value only when the value is present |
| TicketQueries.SortField | ticket_models.py:123-129 | the sort column is always one of the five whitelisted fields: the requested one if whitelisted, else `created_at` |
| TicketQueries.SortOrder | ticket_models.py:123-132 | the order is `ASC` or `DESC`: the requested one if exactly either, else `DESC` |
| TicketQueries.AddIfGiven | ticket_models.py:71-88 | a truthy filter appends its condition and its value; a falsy one appends nothing |
| TicketQueries.AddMatchFilters | ticket_models.py:64-96 | search, status, priority, category, creator and assignee conditions are appended with their values, in source order |
| TicketQueries.AddDateFilters | ticket_models.py:98-114 | the four date conditions are appended with their values, in source order |
| TicketQueries.AddFilters | ticket_models.py:63-114 | the conditions and values grow by exactly the filter clauses |
| TicketQueries.NoFilterClauses | ticket_models.py:63 | empty filters add no condition |
| TicketQueries.FilterClausesAligned | ticket_models.py:63-114 | every filter condition binds exactly as many values as it has placeholders |
| TicketQueries.ConditionsAligned | ticket_models.py:57-114 | the same holds for every condition, ownership included |
| TicketQueries.WhereConditions | ticket_models.py:54-114 | the two lists are the SQL and the values of the reference condition list, in order |
| TicketQueries.GetAllAligned | ticket_models.py:116-134 | the final query has as many placeholders as there are values |
| TicketQueries.GetAll | ticket_models.py:39-138 | the query is the reference text for these conditions and the whitelisted sort; the values are the conditions' values; placeholders equal values |
| TicketQueries.OwnershipFirst | ticket_models.py:57-60 | any role but `admin` (None included) puts the creator/assignee condition first, binding the user id twice; `admin` adds none |
| TicketQueries.SearchBoundTwice | ticket_models.py:65-68 | the search condition binds `%term%` twice |
| TicketQueries.UnassignedBindsNothing | ticket_models.py:91-93 | `assigned_to = 'unassigned'` adds `t.assigned_to IS NULL` with no value and no placeholder |
| TicketQueries.WhereIffConditions | ticket_models.py:116-120 | `WHERE` appears iff there is a condition, and conditions are joined by `AND` in insertion order |
| TicketQueries.AddStatus | ticket_models.py:173-178 | a status appends `status = ?` and, for exactly `'resolved'`, `resolved_at = ?` right after it |
| TicketQueries.Update | ticket_models.py:158-193 | the SET list is the reference assignments, the values are theirs followed by the id, and placeholders equal values |
| TicketQueries.UpdateOrder | ticket_models.py:164-191 | assignments follow the fixed column order, and `updated_at` is always last |
| TicketQueries.UpdateAssignments | ticket_models.py:164-191 | the SET list is never empty and ends with `updated_at = ?` bound to the update time |
| TicketQueries.TextColumnsPresent | ticket_models.py:167-181 | title, description and priority are set iff given |
| TicketQueries.StatusColumnsPresent | ticket_models.py:173-178 | status is set iff given; `resolved_at` is set iff the status is exactly `'resolved'` |
| TicketQueries.IdColumnsPresent | ticket_models.py:182-187 | `category_id` and `assigned_to` are set iff given |
| TicketQueries.ResolvedAfterStatus | ticket_models.py:173-178 | `resolved_at` comes immediately after `status` |
| Analytics.HoursOrZero | analytics.py:208 | a missing or zero average becomes 0; any other average is rounded to within 0.005 |
| Analytics.AverageResolutionTime | analytics.py:42-47 | no row, or a null or zero average, gives {0, 0}; otherwise the rounded average and the resolved count |
| Analytics.ResolutionTimeByCategory | analytics.py:68-73 | one entry per row, in order; a null average becomes 0 |
| Analytics.ResolutionRate | analytics.py:207 | 0 when the total is 0; otherwise within 0.05 of resolved/total × 100 |
| Analytics.RateIsPercentage | analytics.py:207 | with resolved <= total, the rate is in [0, 100], and 100 when all are resolved |
| Analytics.AgentPerformance | analytics.py:203-209 | one entry per agent row, in order, with that row's name and counts, rate `ResolutionRate(resolved, total)` and average `HoursOrZero(average)` |
| Analytics.LastCountOn | analytics.py:112-113 | a date with no row gives 0; otherwise the count comes from a row of that date |
| Analytics.CountsByDateLast | analytics.py:112-113 | the dictionary built from the rows returns, per date, the count of the last row for that date |
| Analytics.CountsByDate | analytics.py:112-113 | the dictionary's keys are exactly the dates of the rows |
| Analytics.OnlyThatDate | analytics.py:112-126 | a day's value depends only on rows of that date; rows outside the window are ignored |
| Analytics.UniqueDateCount | analytics.py:112-124 | a date that occurs once gets that row's count |
| Analytics.TimeSeries | analytics.py:107-128 | `days` entries (none when days <= 0), on consecutive dates ending today, each holding the created and resolved counts for its date or 0 |
| Analytics.DashboardUpdate | analytics.py:363-384 | one `column = ?` per given name, description or config (config encoded), then `updated_at`; values in that order followed by the id; placeholders equal values |
| Analytics.DashboardColumns | analytics.py:367-381 | a column is set iff its argument is given, and `updated_at` always is, last |
| Export.ExportParams | export_utils.py:44-60 | the values are the truthy filters, in the order start, end, status, category; with no filter they are empty |
| Export.AddFilter | export_utils.py:46-48 | a truthy filter appends one condition and one value, a falsy one nothing |
| Export.GetTicketsData | export_utils.py:19-67 | the query is the reference text for these filters and always ends `ORDER BY t.created_at DESC`; placeholders equal values |
| Export.ResolutionTimeHours | export_utils.py:34-38 | the duration is present iff the status is `'Resolved'`, and is then the elapsed hours rounded to 2 places |
| Export.MaxLen | export_utils.py:165-171 | the longest length in a column: no cell is longer, and some cell attains it unless it is 0 |
| Export.ColumnWidths | export_utils.py:163-176 | each width is `min(longest + 2, 50)`: in [2, 50], and every cell fits unless the width is capped at 50 |
| Export.Columns | export_utils.py:164 | one column per position up to the longest row, each as long as the sheet |
| Export.Worksheet.constructor | export_utils.py:215 | a new sheet has its title and no rows |
| Export.Worksheet.Append | export_utils.py:229-230 | one row is appended, nothing else changes |
| Export.Worksheet.AppendAll | export_utils.py:243-244 | the rows are appended in order |
| Export.ColumnLetter | export_utils.py:182 | `get_column_letter`: only ASCII letters, at most three for any column openpyxl allows |
| Export.ColumnLetterRoundTrip | export_utils.py:182 | reading a column's letters back gives the column |
| Export.TitleMergeRejected | export_utils.py:182 | as written, the merge range `'A1:' + str(max_column) + '1'` fails openpyxl's range check for every width |
| Export.TitleMergeAccepted | export_utils.py:182 | with the column letter, the merge range passes the range check and spans column 1 to the last column |
| Export.RangeAccepted | export_utils.py:182 | a range openpyxl accepts gives column letters on both ends or on neither |
| Export.Worksheet.StyleAsWritten | export_utils.py:150-182 | as written: widths fit the data, the title row is inserted, and the title merge raises |
| Export.Worksheet.Style | export_utils.py:150-182 | corrected: the widths fit the data columns, a title row is inserted above the data, and the first row is merged from `A1` to the last column |
| Export.Workbook.constructor | export_utils.py:209 | a new workbook has one empty sheet named `Sheet` |
| Export.Workbook.RemoveActive | export_utils.py:212 | the active (first) sheet is removed |
| Export.Workbook.CreateSheet | export_utils.py:215 | a fresh empty sheet with the given title is appended |
| Export.NullAverageWrittenAsZero | export_utils.py:225-226 | a null overall average is written as 0 |
| Export.SummaryRows | export_utils.py:218-227 | the summary sheet's data is seven rows of two cells each |
| Export.AddSheet | export_utils.py:215-232 | a fresh sheet is appended with its title; it holds the heading row then the data, its widths fit the data, and its first row is merged |
| Export.FillReport | export_utils.py:215-278 | five distinct sheets are added in the fixed order with the fixed titles, each styled over its data |
| Export.CreateComprehensiveReportAsWritten | export_utils.py:196-232 | as written, the report raises while styling its first sheet, which is then the only sheet |
| Export.CreateComprehensiveReport | export_utils.py:196-285 | corrected: exactly five distinct sheets, in the fixed order and with the fixed titles; the default sheet is removed; each holds its heading then its data, with widths fitted and the first row merged |
| Tickets.Refused | tickets.py:90-93 | a viewer is refused iff they are not an admin, not the creator and not the assignee |
| Tickets.ListScopeOwnership | tickets.py:14-17 | an admin's list is restricted by the filters alone; anyone else's first condition restricts it to tickets they created or are assigned, binding their id twice |
| Tickets.ViewTicket | tickets.py:83-93 | not found iff missing; shown iff found and permitted |
| Tickets.CreateTicket | tickets.py:29-76 | rejected (flash and redirect) iff the stripped title or description is empty; created iff both are non-empty, the category is empty or a number, and an admin's non-empty assignee is a number; otherwise the `int()` error is caught and the form is shown again (`CreateFailed`); a created ticket has the stripped texts, the current user as creator, priority defaulting to `medium`, the parsed category, and an assignee that is NULL for a non-admin or no field, `''` for an admin's empty field and the number otherwise |
| Tickets.AdminEmptyAssigneeStoredAsText | tickets.py:35-48 | an admin's empty assignee is stored as the text `''` |
| Tickets.EditTicketAsWritten | tickets.py:117-177 | as written: not found iff missing; refused iff it exists and is not permitted; rejected iff permitted with an empty stripped title or description; edited iff permitted, both non-empty, the category empty or a number and an admin's non-empty assignee a number (else the `int()` error redirects, `EditFailed`); the edit carries the texts, the form's status and priority and the parsed category; an admin's number is passed as the assignee, while a non-admin and an empty assignee pass none |
| Tickets.EditTicket | tickets.py:117-177 | corrected: the same outcomes and fields, but an admin's empty assignee is passed as NULL |
| Tickets.EditWith | tickets.py:132-158 | shared by both edits: outcomes as above for a given assignee argument; edited only when that argument is not a bad number, and then it is the edit's assignee |
| Tickets.EditAssigneeAsWritten | tickets.py:138-155 | as written: a bad number exactly when an admin's non-empty choice does not parse; nothing is passed for a non-admin, a missing field or the empty choice; otherwise the parsed number |
| Tickets.EditAssignee | tickets.py:154-155 | corrected: only an admin passes an assignee, the empty choice passes NULL, and any other choice is as written; a bad number exactly when an admin's non-empty choice does not parse |
| Tickets.EditTicketCorrectsOnlyUnassign | tickets.py:154-155 | the corrected handler equals the written one except for an admin's empty assignee, where it is the same edit with `assigned_to` NULL |
| Tickets.UnassignIsLost | tickets.py:154-158 | as written, an admin who empties the assignee gets an update that sets no `assigned_to` at all |
| Tickets.UnassignClears | tickets.py:154-158 | corrected, the update sets `assigned_to` to NULL |
| Tickets.AssigneeOnlyFromArgument | ticket_models.py:185-187 | an `assigned_to` assignment appears only when an assignee is passed, with that value |
| Tickets.DeleteTicket | tickets.py:181-196 | refused iff the user is not an admin; not found iff an admin names a missing ticket; deleted iff an admin names an existing ticket |
| Tickets.AddComment | tickets.py:204-228 | not found iff the ticket is missing; refused iff it exists and the user may not access it; empty iff it is accessible and the stripped text is empty; added, with the stripped text, iff it is accessible and that text is non-empty |
| Tickets.UpdateStatus | tickets.py:236-256 | not found iff the ticket is missing; refused iff it exists and the user may not access it; invalid iff it is accessible and the status is missing or not one of open, in_progress, resolved, closed; set to the given status otherwise |
| Tickets.StatusChangeStamps | tickets.py:254 | an accepted status change sets the status and `updated_at`, and `resolved_at` exactly for `resolved` |
| Tickets.TicketStats | tickets.py:263-266 | the statistics are shown iff the user is an admin, and 403 iff not |
| PredictionRoutes.PredictTicket | predictions.py:20-40 | a missing or blank description gives 400 before prediction; `null` or a non-string description gives 500 before prediction; a non-blank string gives 500 exactly when the predictor's training raises (`WouldRaise`) and otherwise succeeds with the predictor's `CurrentInsights` for the description, hours in [1, 168] and a percentage in [0, 100] |
| PredictionRoutes.RetrainModels | predictions.py:42-64 | 403 iff not an admin, and then nothing changes; for an admin 500 exactly when training raises, otherwise success whose flag is true iff rows exist and every fit succeeds |
| PredictionRoutes.RecommendationFor | predictions.py:92 | Good iff >= 50 resolved tickets, Limited iff 10..49, Insufficient iff < 10 |
| PredictionRoutes.RecommendationMonotone | predictions.py:92 | more resolved tickets never lower the recommendation |
| PredictionRoutes.ModelStatus | predictions.py:68-93 | the report carries the loaded flag, the two counts and the recommendation for the resolved count |
| PredictionRoutes.NonBlank | predictions.py:110-111 | exactly the entries that are not blank are kept |
| PredictionRoutes.ResultsForMeaning | predictions.py:109-116 | the recursive result relation means: as many results as kept entries, and result k is entry k with its insights |
| PredictionRoutes.ResultsForOfEntries | predictions.py:109-116 | conversely, results that pair off entry by entry satisfy the relation |
| PredictionRoutes.PredictEntry | predictions.py:112-116 | raises exactly when the predictor's training would; otherwise the result carries its description and the `CurrentInsights` of the final models for it, hours in [1, 168], and the predictor is settled |
| PredictionRoutes.PredictAll | predictions.py:109-116 | raises exactly when some entry is not blank and training would raise; otherwise one result per non-blank entry, in input order, each the description with the insights of the final models for it |
| PredictionRoutes.BatchPredict | predictions.py:98-124 | 400 iff the list is missing or empty; 500 exactly when some entry is not blank and training raises; otherwise one result per non-blank entry, in input order, each with its description, the final models' insights for it and hours in [1, 168] |
| Auth.DashboardFor | auth.py:26-29 | the admin dashboard iff the user is an admin |
| Auth.Login | auth.py:9-33 | a missing field is a bad request; an empty field is rejected before any lookup; login succeeds iff the user exists and the hash check passes, and sends the user to their role's dashboard |
| Auth.RoleToCreate | auth.py:43-66 | `admin` is kept only for a signed-in admin requester; no role gives `agent`; any other role passes unchanged |
| Auth.Register | auth.py:36-76 | a missing field is a bad request; the first failing check of empty/mismatch/short/taken is reported and nothing is created; otherwise the user is created with the hashed password and the permitted role |
| App.Home | app.py:35-42 | anonymous to login, admin to the admin dashboard, anyone else to the agent dashboard |
| App.Take | app.py:54 | `xs[:n]`: a prefix of at most n elements, the whole list when shorter |
| App.AdminDashboardPage | app.py:46-59 | a non-admin is redirected to the agent dashboard; an admin sees the stats and the first five tickets of the list (`all[:5]`), or zeros and none when a query raises |
| App.WithStatus | app.py:70-72 | exactly the tickets whose status equals the given one |
| App.AgentDashboardPage | app.py:63-85 | at most five tickets; the total and the exact-match counts of open, in_progress and resolved; zeros and none when the query raises |
| App.StatusCountsWithinTotal | app.py:69-72 | the three status counts add up to at most the total |
| App.AgentCountsWithinTotal | app.py:69-82 | the agent's counts are non-negative and sum to at most the total |
| App.CapitalisedStatusNotCounted | app.py:72 | a ticket with status `Resolved` is not counted as resolved |
| ClientValidation.TrimStart | static/js/main.js:155 | a suffix of the input, empty iff the input is all JavaScript whitespace, otherwise starting with a non-space |
| ClientValidation.TrimStartRemovesSpace | static/js/main.js:155 | what `trimStart` cuts off is all JavaScript whitespace |
| ClientValidation.TrimEnd | static/js/main.js:155 | a prefix of the input whose removed tail is all JavaScript whitespace; empty iff the input is all whitespace, otherwise ending with a non-space |
| ClientValidation.Trim | static/js/main.js:155 | a slice of the input whose removed ends are all whitespace; empty iff the input is all whitespace; otherwise neither end is whitespace |
| ClientValidation.Utf16Length | static/js/main.js:177 | the UTF-16 length is between one and two units per code point |
| ClientValidation.IndexOf | static/js/main.js:168 | the position of the first occurrence of a character, absent iff it does not occur |
| ClientValidation.LooksLikeEmailMatches | static/js/main.js:168-169 | the one-pass check accepts only texts matching `^[^\s@]+@[^\s@]+\.[^\s@]+$` |
| ClientValidation.EmailPatternLooksLikeEmail | static/js/main.js:168-169 | every text matching the pattern is accepted by the one-pass check |
| ClientValidation.LooksLikeEmailIffPattern | static/js/main.js:167-173 | the check accepts a text iff it matches the pattern |
| ClientValidation.ValidateField | static/js/main.js:154-187 | valid iff the field satisfies the rules, iff no message is shown; a blank required field gets the required message; a bad email or a short password gets its message; a blank optional field is valid |
| ClientValidation.ValidateForm | static/js/main.js:141-152 | the form is valid iff every required field is valid, and every required field is validated |
| ClientValidation.InheritedNameBypassesFallback | static/js/main.js:353-371 | as written, the type `toString` yields the inherited function, not the `info` entry |
| ClientValidation.UnknownTypeIsInfo | static/js/main.js:353-371 | an unknown type gets the `info` entry; as written, so does any unknown type that is not an inherited name |
| ClientValidation.LookupAgrees | static/js/main.js:353-371 | the as-written lookup agrees with the intended one iff the type is in the table or is not an inherited name |
| ClientValidation.NotificationClasses | static/js/main.js:353-361 | a known type gets its classes, any other the `info` classes |
| ClientValidation.NotificationIcon | static/js/main.js:363-371 | a known type gets its icon, any other the `info` icon |
| ClientValidation.LookupAsWritten | static/js/main.js:353-371 | as written, the inherited value comes back exactly for a type not in the table that names an inherited property; a string result is the type's entry or the `info` entry |
| ClientValidation.Lookup | static/js/main.js:353-371 | intended: the result is the type's entry or the `info` entry |

## Left out

- The machine-learning numerics are not modelled. This covers TF-IDF, the decision tree, the random forest, `train_test_split`, accuracy and MAE. These are floating-point code in a foreign library. They are oracles: a classifier returns a label id and probabilities assumed in [0, 1], and a regressor returns a real.
- `np.random` draws in `generate_sample_data` are a parameter `draw`. Only the row shape and the floor of 1 hour are modelled.
- `joblib` and `os.path` are modelled as an abstract artifact store, a map from file name to artifact. `os.makedirs` and the model directory are not modelled.
- No SQL is executed. Query results are inputs, and `JULIANDAY`, `AVG`, `COUNT` and `CASE` arithmetic are not evaluated. Only the assembly of the query text and its parameters is modelled.
- Rounding is modelled half-up on exact reals. Python's `round` works on binary doubles and rounds ties to even, so the two can differ on ties. f-string formatting (`:.1f`) is not modelled; the display keeps the real value.
- `Predictor.TicketPredictor.SaveModels`: does not model a failure part-way through one `joblib.dump` call. Each write either completes or fails, decided by its file name.
- `TextNormalizer.Lowered`: handles ASCII and the two non-ASCII characters whose lower-case form is an ASCII letter (KELVIN SIGN and the dotted capital I). The rest of Unicode case mapping is not modelled, because it cannot turn anything into an ASCII letter and so cannot change the result.
- The pandas `NaN` test in `preprocess_text` is not modelled separately. A missing value is `None`.
- Timestamps are not parsed. Dates are whole day numbers and `datetime.now()` is an argument. Database times are whole seconds (`TicketRow.createdAt` and `updatedAt`), and `RowExample` turns their difference into hours.
- Flask, `flask_login`, `render_template`, `jsonify`, `send_file` and `flash` are web plumbing. Responses are outcome datatypes. GET branches that only render a form are not modelled.
- `logout`, `profile` and the `next` parameter of `login_required` are not modelled.
- The werkzeug `generate_password_hash` and `check_password_hash` are oracle parameters.
- `Tickets.CreateTicket`: `int()` on the category and assignee fields is the parameter `toInt`, which returns `None` where Python raises `ValueError`. The handler catches that error, flashes it and renders the form again (tickets.py:63-76); that is the outcome `CreateFailed`. A failure inside `Ticket.create` is not modelled.
- A JSON body that fails to parse, or that is not a JSON object, is not modelled. The handlers take the decoded fields of an object. `PredictionRoutes.PredictTicket` distinguishes an absent, `null`, string or other `description`.
- `PredictionRoutes.BatchPredict`: assumes every entry of `descriptions` is a string. A non-string entry would raise in `strip` and give 500.
- The evaluation steps of training (`predict` on the test split, accuracy and MAE, ml_predictions.py:183-185 and 199-201) are folded into the fit oracles. A failure there is a failed fit.
- `Ticket.get_stats` is not part of this model. Its result is an input to `App.AdminDashboardPage`.
- openpyxl fonts, fills, borders and the `BytesIO` output are styling and I/O. Merging is modelled only as the recorded range and openpyxl's check of it; `$` marks in a range are not modelled. Cell rendering through `str()` is an oracle parameter.
- `static/js/analytics.js` is not part of this model. It is Chart.js rendering, `fetch` and DOM updates.
- `exports.py`, `models.py` and `database.py` are not part of this model. They only copy request arguments, wrap the database and seed the schema.
- The timer- and DOM-driven parts of `main.js` are not modelled: tooltips, modals, fades, `animateNumber`, `debounce`, polling, `apiRequest` and the placement of error messages.
- The global `predictor` instance and its initialisation at import time are not modelled. The routes take a `TicketPredictor` as a parameter.

## Findings

| source | as written | input that shows it | evidently intended | confidence | as-written member | corrected member |
|---|---|---|---|---|---|---|
| tickets.py:154-155 | An admin's empty "assigned to" becomes `None`. `Ticket.update` skips `None` arguments (ticket_models.py:185-187), so no `assigned_to` assignment is issued. | An admin edits an assigned ticket and picks the empty option | `''` clears the assignee: `assigned_to = NULL` | high; not executed | Tickets.EditAssigneeAsWritten, Tickets.EditTicketAsWritten, Tickets.UnassignIsLost | Tickets.EditAssignee, Tickets.EditTicket, Tickets.EditTicketCorrectsOnlyUnassign, Tickets.UnassignClears |
| export_utils.py:182 | The merge range is `'A1:' + str(ws.max_column) + '1'`, a column number where openpyxl expects column letters, e.g. `A1:21`. openpyxl's `range_boundaries` rejects a range whose first side has a column and whose second has none, so `style_worksheet` raises and the report is never produced. | Any report, e.g. the two-column summary sheet gives `A1:21` | `'A1:' + get_column_letter(ws.max_column) + '1'` | medium; rests on openpyxl's range check, which is not part of this model; not executed | Export.TitleMergeRejected, Export.Worksheet.StyleAsWritten, Export.CreateComprehensiveReportAsWritten | Export.TitleMergeAccepted, Export.Worksheet.Style, Export.CreateComprehensiveReport |
| static/js/main.js:353-371 | `classes[type] \|\| classes.info` also finds properties inherited from `Object.prototype`. A type that names one gets a function instead of the `info` entry. | `getNotificationClasses("toString")` | an unknown type gets the `info` classes and icon | high; not executed | ClientValidation.LookupAsWritten, ClientValidation.InheritedNameBypassesFallback | ClientValidation.Lookup, ClientValidation.UnknownTypeIsInfo |
