# Harvest schedule calculator and table, in Dafny

This project models the two parts of `cse_projectt.py`, a small garden
planning script.

**The harvest schedule calculator.** For each planting (a crop, a plant date
written `YYYY-MM-DD` and the days to maturity, DTM), it reads the plant date,
adds the DTM in days and writes the harvest date back as `YYYY-MM-DD`. A
planting whose date cannot be read is reported by crop and skipped. The
schedule keeps the input order.

**The table renderer.** When the schedule is not empty, it prints a header,
then a line of dashes as long as the header, then one line per record. Every
column is as wide as its longest cell or its label, whichever is longer. The
DTM column is right-aligned and the other columns are left-aligned. Columns
are joined by `" | "`.

The model is split into these modules:

- `Wrappers`: the `Result` type.
- `Decimal`: the digit fields `%Y`, `%m` and `%d`, and `str` of an integer.
- `Calendar`: the proleptic Gregorian calendar. Day numbers follow Python's
  ordinals, so 0001-01-01 is day 1. The module defines date arithmetic on
  those day numbers.
- `DateFormat`: the `"%Y-%m-%d"` reader and writer.
- `Partition`: splits a list of outcomes into successes and failures, keeping
  order.
- `HarvestSchedule`: the calculator. Its loop is the method
  `CalculateHarvestSchedule`, proved against the functions `Schedule` and
  `Diagnostics`.
- `TableRender`: the renderer. It returns the printed lines as a list of
  strings. The width computation is the method `ColumnWidths`, which updates
  a map key by key as the program does. The output is the method
  `RenderTable`, proved against the function `Table`.
- `HarvestExamples`: the sample plantings that ship with the program and
  what the model computes for them.

Printing is modelled by returning the lines. The error message of a failed
parse is modelled by a `Diagnostic` that holds the crop and one of two error
kinds:

- `FormatMismatch`: the text does not match the pattern. This is what
  `strptime`'s pattern rejects, including a month outside 01-12 or a day
  outside 01-31.
- `ValueOutOfRange`: the text matches the pattern but names no such day, such
  as year 0 or 30 February. This is what the `datetime` constructor rejects.

## Model

| member | source | states |
|---|---|---|
| `Calendar.IsLeapYear` | cse_projectt.py:25 | the Gregorian rule behind `datetime`: years divisible by 400 are leap, other centuries are not, other multiples of 4 are, all remaining years are not |
| `Calendar.DaysInMonth` | cse_projectt.py:25 | every month has 28 to 31 days, and has 29 exactly for February of a leap year |
| `Calendar.ValidDate` | cse_projectt.py:25 | the dates `datetime` accepts: years 1 to 9999, months 1 to 12, days 1 to 28 always, 29 and 30 outside February, 29 February in leap years only, 31 in January, March, May, July, August, October and December |
| `Calendar.DaysBeforeNextYear` | cse_projectt.py:32 | the closed-form count of days before a year grows by exactly that year's length, 366 in a leap year and 365 otherwise |
| `Calendar.Ordinal` | cse_projectt.py:32 | the day number of a valid date (`toordinal`) lies inside its year's block of day numbers and between 1 and the day number of 9999-12-31 |
| `Calendar.FromOrdinal` | cse_projectt.py:32 | every day number from 1 to the day number of 9999-12-31 is the number of exactly the valid date returned |
| `Calendar.FromOrdinalOrdinal` | cse_projectt.py:32 | a valid date is recovered from its day number |
| `Calendar.OrdinalInjective` | cse_projectt.py:32 | different valid dates have different day numbers |
| `Calendar.OrdinalOrderIff` | cse_projectt.py:32 | a date is earlier in the calendar exactly when its day number is smaller; two dates are equal exactly when their day numbers are |
| `Calendar.AddDays` | cse_projectt.py:32 | adding n days gives a valid date whose day number is n larger; n = 0 gives the same date, negative n an earlier date, positive n a later date |
| `Calendar.AddDaysCompose` | cse_projectt.py:32 | adding a days and then b days is adding a + b days |
| `Calendar.SuccessorOrdinal` | cse_projectt.py:32 | the next calendar day (day, month and year rolling over) has the next day number |
| `Calendar.StepDays` | cse_projectt.py:32 | stepping n times to the next calendar day reaches the day n numbers later |
| `Calendar.AddDaysIsStepping` | cse_projectt.py:32 | adding n days by day numbers agrees with stepping to the next day n times |
| `Decimal.FixedDigitsValue` | cse_projectt.py:18 | a zero-padded field of width w reads back as the number modulo 10^w |
| `Decimal.FixedDigitsRoundTrip` | cse_projectt.py:18 | a number below 10^w written in w digits reads back as itself |
| `Decimal.DigitsRoundTrip` | cse_projectt.py:18 | a string of w digits is the w-digit rendering of the number it denotes |
| `Decimal.NatStringValue` | cse_projectt.py:83 | `str` of a natural number reads back as that number and has no leading zero |
| `Decimal.IntString` | cse_projectt.py:83 | `str` of an integer is non-empty: all digits for a non-negative integer, a minus sign and then digits for a negative one |
| `Decimal.IntStringRoundTrip` | cse_projectt.py:83 | `str` of an integer denotes the integer (sign from the leading minus, magnitude from the digits), its digits are `NatString` of the magnitude, and they never start with a superfluous zero |
| `DateFormat.FormatDate` | cse_projectt.py:35 | a valid date is written as four digits, hyphen, two digits, hyphen, two digits |
| `DateFormat.ParseDate` | cse_projectt.py:25 | an accepted string names a valid date; it is `FormatMismatch` exactly when the string is off the pattern or its month or day field is outside 01-12 or 01-31; it is `ValueOutOfRange` exactly when it is on the pattern but names no valid date |
| `DateFormat.ParsedIsCanonical` | cse_projectt.py:25 | every accepted string is exactly the rendering of the date read from it |
| `DateFormat.FieldsRoundTrip` | cse_projectt.py:25 | writing the year, month and day read from a ten-character date back at widths 4, 2 and 2 restores the string |
| `DateFormat.ParseFormatRoundTrip` | cse_projectt.py:25-35 | writing a valid date and reading it back gives the same date |
| `DateFormat.ParseDateAcceptsExactlyRenderings` | cse_projectt.py:25 | a string is accepted exactly when it is the rendering of some valid date |
| `HarvestSchedule.HarvestDate` | cse_projectt.py:32 | the harvest date is valid and lies exactly DTM day numbers after the plant date |
| `HarvestSchedule.ProcessRecord` | cse_projectt.py:22-48 | one planting gives a record exactly when its date parses; the record echoes crop, plant date and DTM unchanged and its harvest date reads back as plant date plus DTM; otherwise the diagnostic names the crop and the parse error |
| `HarvestSchedule.Outcomes` | cse_projectt.py:22-48 | there is one outcome per planting, in input order, each the result of processing that planting |
| `HarvestSchedule.CalculateHarvestSchedule` | cse_projectt.py:3-50 | the loop returns exactly the specified schedule and diagnostics |
| `HarvestSchedule.ScheduleAppend` | cse_projectt.py:22-48 | processing two lists one after the other gives the two schedules and the two diagnostic lists concatenated |
| `HarvestSchedule.ScheduleCounts` | cse_projectt.py:15-50 | every planting gives either a record or a diagnostic, so the schedule is never longer than the input |
| `HarvestSchedule.ValidPositions` | cse_projectt.py:22-43 | lists, increasing, exactly the positions of plantings whose date parses |
| `HarvestSchedule.ScheduleFollowsInput` | cse_projectt.py:38-43 | the schedule's j-th record comes from the j-th planting whose date parses, so input order is kept |
| `HarvestSchedule.InvalidPositions` | cse_projectt.py:45-48 | lists, increasing, exactly the positions of plantings whose date does not parse |
| `HarvestSchedule.DiagnosticsFollowInput` | cse_projectt.py:45-48 | the j-th diagnostic names the crop and error of the j-th planting whose date does not parse |
| `HarvestSchedule.AllValidSchedule` | cse_projectt.py:22-43 | when every date parses there is one record per planting, in order, and no diagnostic |
| `HarvestSchedule.ScheduleStep` | cse_projectt.py:22-48 | one more pass of the loop appends the planting's record to the schedule or its diagnostic to the report, and nothing else |
| `HarvestSchedule.SkippedAlone` | cse_projectt.py:45-48 | a lone planting whose date does not parse yields no record and exactly one diagnostic naming its crop and the parse error |
| `HarvestSchedule.DropOnFailure` | cse_projectt.py:45-48 | inserting a planting with a bad date leaves the schedule unchanged and adds its diagnostic at its place |
| `HarvestSchedule.ZeroDaysToMaturity` | cse_projectt.py:32-35 | with DTM 0 the harvest date string equals the plant date string |
| `TableRender.Pad` | cse_projectt.py:93-96 | a padded cell is as long as the width, or as the text when the text is longer |
| `TableRender.PadShape` | cse_projectt.py:93-96 | a left-aligned cell is its text followed by spaces; a right-aligned cell is spaces followed by its text |
| `TableRender.Join` | cse_projectt.py:92-97 | a joined line is as long as its parts plus three characters for the separator between each pair of parts |
| `TableRender.JoinPart` | cse_projectt.py:92-97 | each part of a joined line stands at its start offset |
| `TableRender.JoinSeparator` | cse_projectt.py:92-97 | the separator stands between each pair of consecutive parts |
| `TableRender.FormatLine` | cse_projectt.py:92-107 | a line is as long as its four columns, each taking its width or its cell's length when the cell is longer (cells are never cut), plus three separators |
| `TableRender.LineLength` | cse_projectt.py:92-97 | when every cell fits its column, a line is as long as the four widths plus three separators |
| `TableRender.LineCell` | cse_projectt.py:102-108 | on a line whose cells fit, each column's slice, starting at the column's offset, is that cell padded to the column width |
| `TableRender.LineSeparator` | cse_projectt.py:104-106 | on a line whose cells fit, every column but the last is followed by the column separator |
| `TableRender.DtmColumn` | cse_projectt.py:106 | a record's DTM column holds spaces and then the decimal DTM, ending at the column's right edge |
| `TableRender.MaxOf` | cse_projectt.py:81-84 | the maximum of a non-empty list bounds every element and is one of them |
| `TableRender.ColumnWidth` | cse_projectt.py:80-89 | a column's width is at least its label's length and every cell's length, and equals one of them |
| `TableRender.Widths` | cse_projectt.py:80-89 | there is a width for every column, and it is that column's width |
| `TableRender.ColumnWidths` | cse_projectt.py:80-89 | computing the longest cells and then raising each entry to its label's length gives the specified widths |
| `TableRender.RaisedWidths` | cse_projectt.py:88-89 | each column's longest cell raised to its label's length is the column width |
| `TableRender.CellsFit` | cse_projectt.py:80-89 | the labels and every record's cells fit the computed widths |
| `TableRender.RowLines` | cse_projectt.py:102-108 | one line per record, in schedule order: line j is record j's cells formatted with the column widths |
| `TableRender.FormatRows` | cse_projectt.py:102-108 | the row loop returns exactly `RowLines`: one line per record, in schedule order |
| `TableRender.LayoutHeader` | cse_projectt.py:92-99 | the table starts with the header line and a line of dashes exactly as long as the header |
| `TableRender.LayoutRows` | cse_projectt.py:102-108 | after the header and the dashes come the records' lines, in record order |
| `TableRender.RowLinesWidth` | cse_projectt.py:102-108 | when the cells fit, every record's line has the total width |
| `TableRender.LayoutWidth` | cse_projectt.py:92-108 | when the cells fit, every line of the table has the same length |
| `TableRender.Table` | cse_projectt.py:78-108 | the printed table has no line for an empty schedule and two more lines than records otherwise |
| `TableRender.TableShape` | cse_projectt.py:78-108 | a non-empty schedule gives the header, dashes as long as it, and one line per record in order, all of the same length |
| `TableRender.PrintedLines` | cse_projectt.py:92-108 | the printed lines are the header, the dashes and the row lines |
| `TableRender.RenderTable` | cse_projectt.py:78-108 | the output is the specified table, and it is empty exactly when the schedule is empty |
| `HarvestExamples.KnownHarvest` | cse_projectt.py:22-43 | a planting whose date renders a known date and whose harvest day number is known yields the record showing that harvest date |
| `HarvestExamples.TomatoesHarvest` | cse_projectt.py:62 | 75 days after 2025-04-15 is 2025-06-29 |
| `HarvestExamples.SampleRecords` | cse_projectt.py:56-70 | each sample planting parses and yields its expected record |
| `HarvestExamples.SampleScheduleComputed` | cse_projectt.py:56-74 | the sample data gives six records (harvests 2025-06-15, 2025-06-29, 2025-06-29, 2025-07-04, 2025-06-09 and 2025-08-30) and no diagnostic |
| `HarvestExamples.NoThirtiethOfFebruary` | cse_projectt.py:25 | `2025-02-30` is refused as out of range |
| `HarvestExamples.NoThirteenthMonth` | cse_projectt.py:25 | `2025-13-01` is refused as a pattern mismatch |
| `HarvestExamples.LeapDay` | cse_projectt.py:25 | `2024-02-29` is accepted |
| `HarvestExamples.NoLeapDay` | cse_projectt.py:25 | `2025-02-29` is refused as out of range |
| `HarvestExamples.InvalidPlantingReported` | cse_projectt.py:45-48 | a planting dated 2025-02-30 yields no record and one diagnostic naming its crop |

## Left out

- Console output is not modelled. This covers the schedule title printed at
  line 20, the two error lines at lines 46-47, and the `print` calls of the
  table. The table is returned as a list of lines instead.
- The text of the `ValueError` message is not modelled. A diagnostic holds
  the crop and an error kind instead.
- DateFormat.ParseDate: reads only the canonical ten-character form.
  `strptime` is more lenient: it also accepts single-digit months and days
  (`2025-5-1`), non-ASCII digits and some whitespace. The model refuses such
  inputs with `FormatMismatch` where the program would accept them.
- Years below 1000 are written here with four zero-padded digits. The width
  `strftime` gives `%Y` for such years depends on the platform.
- HarvestSchedule.CalculateHarvestSchedule: requires every harvest date to
  fall within years 1 to 9999 (`InRange`, also required by `ProcessRecord`).
  Outside that range the program raises an uncaught `OverflowError`, which is
  not modelled.
- Plantings with a missing key (`KeyError`) or a non-integer DTM are not
  modelled. Those are typing errors in the caller's data.
- `Calendar.FromOrdinal` finds the year by searching upward from a lower
  estimate. CPython instead splits the day number into 400-, 100-, 4- and
  1-year cycles. Both give the same function, and the model proves its
  version is the inverse of `Ordinal`.
- Each line is built by `Join` from its four padded cells. This gives the
  same string as the program's concatenated f-string literals.
- `col_widths` is a map keyed by the `Column` datatype rather than by the
  label strings. The labels are given by `Label`.
