# Healthcare clinic dashboard and its synthetic data, in Dafny

The project models the two pieces of logic in the clinic application.

- **The dashboard's data shaping** (`app.py`). Three tables are derived once at startup: revenue per year, its year-over-year growth column, and year-to-date revenue per year. The date picker and the category dropdown get their default values. The reactive handler `update_figures` masks the appointment and revenue tables by an inclusive date range and a list of service categories. It then aggregates them into three series: appointments per date, revenue per payment date, and the count per status.
- **The synthetic-data script** (`generate_insert_data.py`). It writes `insert_data.sql` section by section: patients, doctors, services, employees, appointments, billing, feedback and referrals. It fills the id pools the foreign keys are drawn from. It bills an appointment only when the billing loop's own status draw comes out 'Completed'. It doubles the single quotes in the free-text comments and notes.

Modules:

- Tables: the pandas primitives, restated over sequences of rows.
  - A boolean mask is `Filter`.
  - A group-by that counts and sums per key is `GroupRows`, specified by the reference predicate `IsGrouping` over `CountKey`/`SumKey`/`KeySet`.
  - The ordering of the groups is `SortBy`, an insertion sort by a score.
- Dashboard: the dashboard's tables, handler and defaults as pure functions.
  - A date is `(year, dayOfYear)` and is ordered like the calendar.
  - Amounts are integers.
- SqlText: the quote doubling of a SQL character-string literal (subclause 5.3 of ISO/IEC 9075-2), its inverse, and the decimal rendering of the integers the script interpolates.
- Vocabulary: the categorical values the script draws from, with the exact text it writes.
- InsertData: the script as one method per loop and a driver `GenerateInsertData`.
  - Every call into `random` or Faker is a caller-supplied oracle: `draw(site, i)` and `fake(section, kind, i)`.
  - Each `file.write` is one `Write` value, and `Text`/`Script` give the characters written.
  - The loops are proved against the predicates `Laid` (every section sits at its computed position, keyed `1, 2, ...`, or by the billed ids) and `ValidRows` (value ranges and escaped text).
  - From these, the lemmas derive section order, the referential validity of every foreign key and exact billing.

The model follows the code in these places:

- The dashboard handles an empty category list, giving empty results.
- Only the feedback comments and referral notes are escaped. Names, service names, phone numbers and e-mails are interpolated as they are.
- The growth of a year is taken over the row before it in the yearly table, which may be an earlier year than the one before.

## Model

| member | source | states |
|---|---|---|
| `Tables.Filter` | app.py:210-214 | the masked table holds exactly the rows of the input that satisfy the mask and is never longer |
| `Tables.FilterMultiplicity` | app.py:210-214 | a kept row keeps its multiplicity, a dropped row occurs zero times |
| `Tables.FilterAppend` | app.py:210-214 | masking distributes over concatenation, so kept rows stay in input order |
| `Tables.FilterKeepsAll` | app.py:210-214 | a mask true on every row returns the table unchanged |
| `Tables.SumKeyFilterAtMost` | app.py:128-129 | with non-negative values, masking can only lower a per-key sum |
| `Tables.KeySetFilter` | app.py:128-129 | masking can only remove group keys |
| `Tables.GroupRows` | app.py:217 | the groups are a grouping of the rows: distinct keys, each present key once, every size at least 1, each size the key's row count, each total the key's value sum, sizes adding up to the row count and totals to the column sum |
| `Tables.GroupingOfNothing` | app.py:217 | a grouping of no rows has no groups |
| `Tables.GroupOfKey` | app.py:217 | each listed group carries its key's row count (at least 1) and value sum, and its key occurs in the rows |
| `Tables.SortBy` | app.py:97 | the sorted groups are a permutation of the input, ordered by score, with the same keys, sizes and totals, still distinct |
| `Tables.SortKeepsGrouping` | app.py:97 | sorting a grouping yields a grouping of the same rows |
| `Tables.StrictlySorted` | app.py:97 | under a score that separates distinct keys, sorted distinct groups are strictly ascending |
| `Dashboard.SortKeyOrder` | app.py:211-212 | the date score orders dates exactly as the calendar does, and equal scores mean equal dates |
| `Dashboard.FilterAppointments` | app.py:210-214 | an appointment is kept iff start <= date <= end (both inclusive) and its category is selected |
| `Dashboard.FilterPayments` | app.py:237-241 | a payment is kept iff the same inclusive range and category test holds on its payment date |
| `Dashboard.AppointmentsPerDate` | app.py:217 | a grouping of the rows by date with count sizes; dates distinct and strictly ascending |
| `Dashboard.DatesAscending` | app.py:217 | distinct groups sorted by date score are in strictly ascending calendar order |
| `Dashboard.StatusCounts` | app.py:227-228 | a grouping of the rows by status (each status once, counts summing to the rows); counts non-increasing |
| `Dashboard.RevenuePerDate` | app.py:242 | a grouping of the rows by payment date summing amounts (totals add to the masked revenue); dates strictly ascending |
| `Dashboard.UpdateFigures` | app.py:204-250 | the three outputs are the per-date counts and status counts of the masked appointments and the per-date sums of the masked revenue; both date series are in strictly ascending calendar order, and the status counts are non-increasing |
| `Dashboard.EmptySelection` | app.py:210-242 | with no category selected, or start after end, both masked tables and all three outputs are empty |
| `Dashboard.EarliestDate` | app.py:158 | absent iff there is no appointment; otherwise an appointment's date on or before every appointment's date |
| `Dashboard.LatestDate` | app.py:159 | absent iff there is no appointment; otherwise an appointment's date on or after every appointment's date |
| `Dashboard.Unique` | app.py:169-171 | the same values as the input, each exactly once |
| `Dashboard.DefaultSelection` | app.py:158-171 | absent iff there is no appointment; otherwise the start is the earliest and the end the latest appointment date, and the selected categories are exactly the service categories |
| `Dashboard.DefaultKeepsEveryAppointment` | app.py:158-171 | with the default controls, the appointment mask keeps the whole table when every appointment's category is a service category |
| `Dashboard.AnnualRevenue` | app.py:94-97 | a grouping of the payments by year summing amounts (yearly totals add to the grand total); years strictly ascending |
| `Dashboard.Change` | app.py:98 | undefined iff the previous total is zero; otherwise the percentage p with p * previous = (current - previous) * 100, positive iff revenue grew (for a positive previous total) |
| `Dashboard.GrowthColumn` | app.py:98 | one cell per year, none for the earliest, each later cell the change over the row before it |
| `Dashboard.GrowthExample` | app.py:98 | revenue 100, 150, 120 gives no value, 50%, -20% |
| `Dashboard.YearToDateRows` | app.py:127-128 | a payment is kept iff its day of the year is at most today's |
| `Dashboard.YearToDate` | app.py:127-130 | a grouping by year of exactly the payments made by today's day of the year; years strictly ascending, so years without one are absent |
| `Dashboard.YearToDateWithinAnnual` | app.py:127-129 | every year-to-date year is an annual year, and with non-negative amounts its year-to-date total is at most its annual total |
| `Dashboard.YearToDateExample` | app.py:122-130 | a payment on day 10 counts on day 50, one on day 200 does not |
| `SqlText.Escape` | generate_insert_data.py:112 | the output is as long as the input plus its quotes, and holds twice as many quotes |
| `SqlText.EscapedIsPaired` | generate_insert_data.py:112 | in an escaped text, quotes occur only as adjacent pairs |
| `SqlText.UnescapeEscape` | generate_insert_data.py:127 | collapsing each doubled quote of an escaped text gives back the text |
| `SqlText.EscapeUnescape` | generate_insert_data.py:112 | every text whose quotes are paired is the escape of what it reads as, so escaping is a bijection onto such texts |
| `SqlText.NatString` | generate_insert_data.py:38 | a non-empty string of decimal digits with no leading zero unless the number is 0 |
| `SqlText.NatStringValue` | generate_insert_data.py:38 | reading the rendered digits back gives the number |
| `InsertData.Choose` | generate_insert_data.py:81-83 | a drawn value is one of the options |
| `InsertData.RandInt` | generate_insert_data.py:60 | a drawn integer lies in [lo, hi], both ends included |
| `InsertData.Statement` | generate_insert_data.py:38 | an INSERT statement starts with `INSERT INTO <table> (` and ends the line |
| `InsertData.Comment` | generate_insert_data.py:42 | a section heading is a blank line, `-- `, the section's name (the employees' heading says `Employees`) and a newline |
| `InsertData.CommentsDiffer` | generate_insert_data.py:42-118 | the headings of two different sections differ |
| `InsertData.Text` | generate_insert_data.py:27-128 | the preamble starts with the `USE` batch, every row write starts with `INSERT INTO` and its own table (the employees' table is `Employee`), every write ends a line |
| `InsertData.JoinAppend` | generate_insert_data.py:24-128 | the text of two runs of writes, one after the other, is the first run's text followed by the second's |
| `InsertData.ScriptAppend` | generate_insert_data.py:24-128 | the file written by two runs of writes is the first run's file followed by the second's |
| `InsertData.ScriptWrite` | generate_insert_data.py:24-128 | one more `file.write` appends exactly that write's text to the file |
| `InsertData.ScriptStartsWithUse` | generate_insert_data.py:27 | a script opening with the preamble starts with `USE HealthcareAppDB;` and `GO` |
| `InsertData.InIdRange` | generate_insert_data.py:81-83 | a key is in a pool iff it lies in the pool's range of keys |
| `InsertData.CompletedIds` | generate_insert_data.py:93-104 | there are at most as many bills as iterations |
| `InsertData.CompletedIdsMembers` | generate_insert_data.py:93-97 | an iteration is billed iff it lies in 1..n and its billing draw is 'Completed' |
| `InsertData.CompletedIdsIncreasing` | generate_insert_data.py:93-103 | billed ids are strictly increasing, so no appointment is billed twice |
| `InsertData.BillStep` | generate_insert_data.py:96-104 | a 'Completed' iteration appends the bill of its own appointment, paid in full in [10000, 50000], and keeps the billing invariant |
| `InsertData.Skip` | generate_insert_data.py:95-96 | an iteration whose draw is not 'Completed' writes nothing and keeps the billing invariant |
| `InsertData.WritePatients` | generate_insert_data.py:27-40 | the file opens with the preamble followed by patients 1..1000, and the patient pool is [1..1000] |
| `InsertData.WriteDoctors` | generate_insert_data.py:42-53 | keeps what was written before; doctors 1..50 follow their heading; the doctor pool and the employee pool are both [1..50] |
| `InsertData.WriteServices` | generate_insert_data.py:55-63 | keeps what was written before; services 1..30 follow their heading, each costing within [10000, 50000]; the service pool is [1..30] |
| `InsertData.WriteEmployees` | generate_insert_data.py:65-76 | keeps what was written before; employees 51..60 follow their heading and are appended to the employee pool after the doctors |
| `InsertData.WriteAppointments` | generate_insert_data.py:78-89 | keeps what was written before; appointments 1..5000 follow their heading, each with patient, doctor and service keys from the complete pools; the appointment pool is [1..5000] |
| `InsertData.WriteBilling` | generate_insert_data.py:91-104 | keeps what was written before; after its heading come exactly the bills of the iterations whose draw was 'Completed', in order, each with billing id = appointment id, amount paid = total in [10000, 50000] |
| `InsertData.WriteFeedback` | generate_insert_data.py:106-116 | keeps what was written before; feedback 1..500 follow their heading, with pool keys, ratings in 1..5, and the comment of each of those rows is the escape of its own Faker sentence |
| `InsertData.WriteReferrals` | generate_insert_data.py:118-128 | keeps what was written before; referrals 1..200 follow their heading, with pool patient keys, and the note of each of those rows is the escape of its own Faker sentence |
| `InsertData.LaidOrdered` | generate_insert_data.py:26-128 | the finished script never returns to an earlier section |
| `InsertData.LaidReferencesEarlier` | generate_insert_data.py:78-128 | every foreign key of the finished script names a row written before it in the referenced table |
| `InsertData.BillWritten` | generate_insert_data.py:93-104 | every appointment whose billing draw is 'Completed' has its bill in the script |
| `InsertData.BilledExactly` | generate_insert_data.py:93-104 | the script bills appointment m iff m is in 1..5000 and its billing draw is 'Completed' |
| `InsertData.LaidScript` | generate_insert_data.py:24-128 | a fully laid out script is section-ordered, references only earlier rows, starts with the `USE` batch, and keeps every feedback comment and referral note the escape of its sentence |
| `InsertData.ExtendsPrefix` | generate_insert_data.py:24-128 | a run of writes extends another iff the other is its prefix |
| `InsertData.CommentsKept` | generate_insert_data.py:106-128 | escaped feedback comments stay escaped when the referrals are written after them |
| `InsertData.LaidEscapedFields` | generate_insert_data.py:106-128 | in a fully laid out script, every feedback comment and every referral note is the escape of the Faker sentence of its own row |
| `InsertData.GenerateInsertData` | generate_insert_data.py:17-128 | the pools are [1..N] in order, and the employee pool is [1..50] followed by [51..60] with no duplicates; the script is laid out section by section with the 'Completed' bills, every row is in range, sections are in order, every foreign key refers to an earlier row, the file starts with `USE`, and every feedback comment and referral note is the escape of its row's Faker sentence |

## Left out

- The database queries and `fetch_data` (app.py:19-77) are database I/O. The joins and `CAST(... AS DATE)` are taken as given: a loaded row is a date at day granularity, a status or amount, and a service category.
- The plotly figures, the Dash layout and the callback wiring are rendering and UI framework, so they are not modelled. This covers the OLS trendline, the histogram and pie, the text templates and the `min_date_allowed`/`max_date_allowed` bounds. Only the default control values are modelled.
- Dashboard.Change: the growth percentage is computed over exact reals, not floating point, and a zero previous year is the single value `Undefined` rather than inf or NaN.
- `pd.Timestamp('today')` becomes a parameter: the day of the year is passed in. The current year it also reads is never used by the tables modelled.
- Dashboard.StatusCounts: the order of statuses with equal counts is not stated, because pandas does not promise one.
- Dashboard.DefaultSelection: a date picker cleared by the user (a `None` start or end) is not modelled. The handler always receives two dates.
- Dashboard.EarliestDate: NaT on an empty table becomes `None`.
- InsertData.Choose: the weights of `random.choices` and the distributions of `random` and Faker are not modelled. A draw is any caller-supplied number, reduced into range.
- The file open and write (generate_insert_data.py:24) are modelled as a sequence of writes and their concatenated text `Script`. Encoding is not modelled.
- Faker's `word().capitalize()` and the date formatting are part of the text oracle. The model does not state what those strings look like.
- InsertData.Text: the statements are not claimed to be well-formed SQL. Names, service names, phone numbers, e-mails and the referring physician are interpolated unescaped. Only the comments and notes are proved to be valid literal bodies.
- InsertData.WriteBilling: the billing loop's status draw is independent of the status written for the appointment. The model keeps that behaviour and does not relate a bill to its appointment's stored status.
- The dashboard takes its loaded tables as inputs. It is not connected to the rows the script writes.
