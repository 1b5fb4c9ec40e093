# Radio advertising contracts: a verified model of the admin front end's logic

This project models, in Dafny, the logic behind the contract screens of an admin front end for a radio station's advertising business. It also proves properties of that model. The front end is written in React. Its pages mostly fetch data and render it; the logic modelled here is:

- **Contract status** (`src/pages/Contratos/index.jsx`).
  - `getContratoEstado` derives a contract's displayed status from three inputs: the stored status, its optional start and end timestamps, and "now".
  - The page then builds three things from it: the processed contract list, the per-status counters, and the list filtered by text and status.
- **The contract wizard** (`src/pages/FormularioContrato/hooks/useContratoForm.js`).
  - A four-step form with a validity test per step.
  - The weekday emission flags and their toggle.
  - The schedule-and-price memo: the total days, the on-air days, and the price `precio/30 · días − descuento`, clamped at zero and rounded to cents.
  - Auto-fill of the agreed amount.
  - The quick-duration resolver: N months or N days from the start date.
  - The payload sent on submit.
- **Stock availability** (`src/pages/FormularioContrato/components/DisponibilidadStock.jsx`).
  - Expands the date range.
  - Looks up the free advertising slots for each date; a date with no record counts as 100.
  - Compares each day against the plan's slots per day.
  - Counts the on-air days that lack stock.
- **Plan features** (`src/pages/Planes.jsx`): the features list is joined with newlines when a plan is loaded for editing. On save it is split on newlines and blank lines are dropped. Also the form's `handleChange`.
- **Voice-talent panel** (`src/pages/PanelLocutor.jsx`): how the `view` query parameter resolves, and the case-insensitive filter over the four task lists.

Modules:
- `Wrappers`: `Option` and `Result`.
- `Lists`: order-preserving filter and count.
- `Text`: ASCII/Latin-1 lower-casing, substring test, blank test, split and join on a separator.
- `Calendar`:
  - proleptic Gregorian dates with a day number counted from 1970-01-01;
  - the weekday;
  - the `Date.setDate`/`setMonth` roll-over rules.
- `Emission`: weekday flags.
- `Pricing`.
- `ContractStatus`.
- `ContractForm`, which holds the wizard as a class whose fields are the hook's state variables.
- `StockAvailability`.
- `PlanForm`.
- `LocutorPanel`.

Code that mutates state in the source is modelled imperatively. This covers:
- the day-counting `for` loop;
- the `while` loop that fills the date range;
- the counter in the daily summary;
- the step machine and the weekday toggle;
- deleting keys from the payload.

Each of these methods is proved against a specification function or states its new state in closed form, and the properties the source promises are proved about those functions and states. The status rules, the counters, the filters, the price arithmetic and the plan-features serialiser are pure functions.

Some decisions of the model:

- **Dates.**
  - Timestamps in the status deriver are whole milliseconds. A date field is `Absent`, `Invalid` (a string that does not parse) or `At(ms)`.
  - Wizard dates are calendar dates (year, month, day). "Today" is a parameter.
  - The day-counting loop and the stock panel walk the range by day number (days since 1970-01-01). `Calendar.SetDateForward` shows that `setDate(getDate() + 1)` is the next calendar day, and `Calendar.NextDayNumber` that the next calendar day is one day number on. Stock records are keyed by the day number of their date.
- **Money.**
  - Money is an exact `real`.
  - `toFixed(2)` becomes `RoundCents`, which rounds half up to whole cents.
  - A discount that is empty or not numeric is `None` and counts as zero.
- **Weekday flags.** The weekday flag map is a record of seven booleans. Its key order `lunes … domingo` is the object's insertion order, and the submitted list of days follows it.
- **Payload keys.** Field names of the contract payload are an enumeration. `Field.Key` gives each one's JSON name.

Four behaviours of the code that a reader might not expect, all modelled as written:
- **Auto-filled amount.** The agreed amount is overwritten with the computed price every time the price changes. The conditions are: not editing, the price is positive and a plan is set. It is more than a first-time fill.
- **Empty weekday selection.** Choosing no weekday is not rejected. It yields zero on-air days and a price of 0, unless the discount is negative (the discount input has no lower bound); then the price is the discount's absolute value, rounded to cents (`Pricing.EmptySelectionPrice`).
- **Failed stock lookup.** A failed lookup leaves an empty record list. Every day then shows the default 100. No day conflicts while the plan needs at most 100 slots a day; with more, every day on air conflicts (`StockAvailability.NoRecordsConflicts`). There is no "unknown" state.
- **`goToStep(k)`.** It sets any `k` below the current step, including `k < 1`. Its callers pass 1 to 4, so `GoToStep` promises the step invariant only when `k ≥ 1`.

## Model

| member | source | states |
|---|---|---|
| ContractStatus.DeriveEstado | src/pages/Contratos/index.jsx:148-160 | rules in first-match order: an unparseable date returns the stored status; then `Cancelado`, then `Pendiente_Activacion` win; then `Programado` if now < start, `Vencido` if now > end, `Por_Vencer` if end − now ≤ 604800000 ms, `Activo` if start ≤ now ≤ end; otherwise the stored status; each derived label implies its rule fired; a derived `Activo` is never inside the last week |
| ContractStatus.DeriveIdempotent | src/pages/Contratos/index.jsx:148-160 | deriving again from an already derived status gives the same status |
| ContractStatus.LifecycleMonotone | src/pages/Contratos/index.jsx:155-158 | for a date-driven contract with both dates, the stage Programado → Activo → Por_Vencer → Vencido never moves backwards as time advances |
| ContractStatus.Process | src/pages/Contratos/index.jsx:173-178 | same length and order; each record's status becomes the derived one and every other field is unchanged |
| ContractStatus.ProcessIdempotent | src/pages/Contratos/index.jsx:173-178 | processing an already processed list changes nothing |
| ContractStatus.StatsOf | src/pages/Contratos/index.jsx:180-188 | total is the list length; each of `activos`, `programados`, `vencidos`, `porVencer` is the length of the list filtered by its label; the four sum to at most the total; `activos` is zero iff no record is `Activo` |
| ContractStatus.FilteredItems | src/pages/Contratos/index.jsx:277-285 | an order-preserving subsequence of the processed list; under a filter other than `Todos` every kept record carries that status; a record is kept iff it is in the list, its campaign or client name (lower-cased) or its document number contains the lower-cased search text, and its status matches; as many records as match, so repeated records repeat |
| ContractForm.FindPlan | src/pages/FormularioContrato/hooks/useContratoForm.js:66 | the found plan is in the list and has the id; `None` iff no plan has the id; the found plan sits at a position before which no plan has the id (the first match) |
| ContractForm.StepValid | src/pages/FormularioContrato/hooks/useContratoForm.js:36-44 | per step, iff: step 1 needs the client id (existing client) or name and e-mail (new client); step 2 a plan; step 3 both dates; step 4 campaign name and amount; any other step is invalid |
| ContractForm.ScheduleOf | src/pages/FormularioContrato/hooks/useContratoForm.js:50-77 | (0, 0, 0) when start, end or plan is missing or end < start; otherwise total days = end − start + 1 and on-air days = count of flagged weekdays in the range, never above the total; price 0 for an unknown plan, else `Price` of the plan's monthly price; the price is never negative |
| ContractForm.ComputeSchedule | src/pages/FormularioContrato/hooks/useContratoForm.js:52-65 | the day-by-day loop returns exactly `ScheduleOf` |
| ContractForm.AllWeekdaysCountEveryDay | src/pages/FormularioContrato/hooks/useContratoForm.js:58-65 | with all seven flags on, the on-air days equal the total days |
| ContractForm.FirstWeekOf2024 | src/pages/FormularioContrato/hooks/useContratoForm.js:50-77 | 1–7 January 2024, Monday–Friday flags, a 300/month plan and a discount of 10 give 7 days, 5 on air and price 40 |
| ContractForm.FirstWeekOf2024Days | src/pages/FormularioContrato/hooks/useContratoForm.js:58-65 | the first week of 2024 holds five Monday–Friday days |
| ContractForm.SetDateBack | src/pages/FormularioContrato/hooks/useContratoForm.js:104 | `setDate(getDate() − 1)` is the previous calendar day, also across month and year ends |
| ContractForm.DurationEndDays | src/pages/FormularioContrato/hooks/useContratoForm.js:105-106 | `dias` N ends N − 1 days after the start, so N = 1 ends on the start |
| ContractForm.DurationEndMonths | src/pages/FormularioContrato/hooks/useContratoForm.js:102-104 | `meses` N ends the day before the start's day of the month N months later, with the `setMonth` roll-over; for a start day ≤ 28 that is the day before the same day of the month N months on |
| ContractForm.ResolveEnd | src/pages/FormularioContrato/hooks/useContratoForm.js:101-107 | moving a copy of the start with `setMonth`/`setDate` yields exactly `DurationEnd` |
| ContractForm.OneMonthFromFirst | src/pages/FormularioContrato/hooks/useContratoForm.js:102-104 | one month from the first of a month ends on that month's last day (29 February in a leap year, 28 otherwise) |
| ContractForm.FormKeysComplete | src/pages/FormularioContrato/hooks/useContratoForm.js:15-19 | the form state holds every payload field except the emission days |
| ContractForm.BuildPayload | src/pages/FormularioContrato/hooks/useContratoForm.js:239-252 | the payload's keys are the form fields plus `dias_emision`, minus the new-client fields (creating, existing client) or the client id (creating, new client); kept fields carry the form's values; `dias_emision` is the given list |
| ContractForm.ContratoForm.constructor | src/pages/FormularioContrato/hooks/useContratoForm.js:11-22 | step 1, existing client, empty form, Monday–Friday flags, duration in months with no value |
| ContractForm.ContratoForm.NextStep | src/pages/FormularioContrato/hooks/useContratoForm.js:46 | advances by one, capped at 4, only when the current step is valid; otherwise nothing changes; the step stays in 1..4 |
| ContractForm.ContratoForm.PrevStep | src/pages/FormularioContrato/hooks/useContratoForm.js:47 | goes back by one, never below 1 |
| ContractForm.ContratoForm.GoToStep | src/pages/FormularioContrato/hooks/useContratoForm.js:48 | moves only to a lower step; never forwards |
| ContractForm.ContratoForm.HandleDiasChange | src/pages/FormularioContrato/hooks/useContratoForm.js:196 | flips exactly the given weekday and leaves the other six |
| ContractForm.ContratoForm.AutoFillAmount | src/pages/FormularioContrato/hooks/useContratoForm.js:92-96 | sets the agreed amount to the computed price when not editing, the price is positive and a plan is set; otherwise the form is unchanged |
| ContractForm.ContratoForm.ApplyDuration | src/pages/FormularioContrato/hooks/useContratoForm.js:98-111 | with a duration value and a plan, the start becomes today when unset and the end becomes `DurationEnd` of the start; otherwise the form is unchanged |
| ContractForm.ContratoForm.SubmitPayload | src/pages/FormularioContrato/hooks/useContratoForm.js:220-252 | fails with the validation message iff the current step is invalid; otherwise the payload has exactly the kept keys, the form's values and `dias_emision` = the names of the flagged weekdays in key order |
| Emission.WeekdayAtDate | src/pages/FormularioContrato/hooks/useContratoForm.js:58-61 | the weekday the loops use for a date's day number is the key `dayMap` gives that date's `getDay()` |
| Emission.EmissionDays.Toggle | src/pages/FormularioContrato/hooks/useContratoForm.js:196 | the toggled flag is negated and every other flag is kept |
| Emission.ToggleTwice | src/pages/FormularioContrato/hooks/useContratoForm.js:196 | toggling a day twice restores the flags |
| Emission.SameFlags | src/pages/FormularioContrato/hooks/useContratoForm.js:20-22 | two flag records that agree on every weekday are equal |
| Emission.KeyOrderComplete | src/pages/FormularioContrato/hooks/useContratoForm.js:20-22 | every weekday is one of the seven keys |
| Emission.Selected | src/pages/FormularioContrato/hooks/useContratoForm.js:237 | a weekday is listed iff its flag is on, in key order |
| Emission.Names | src/pages/FormularioContrato/hooks/useContratoForm.js:237 | one name per weekday, position by position: the i-th name is the key of the i-th weekday |
| Emission.NamesMember | src/pages/FormularioContrato/hooks/useContratoForm.js:237 | a weekday's name is listed iff the weekday is |
| Emission.SelectedNamesMember | src/pages/FormularioContrato/hooks/useContratoForm.js:237 | a weekday's name is in the submitted list iff its flag is on |
| Emission.FromNames | src/pages/FormularioContrato/hooks/useContratoForm.js:172-180 | when editing, a stored value that is not a list leaves every flag off; otherwise a flag is set iff its name is in the stored list |
| Emission.SaveLoadRoundTrip | src/pages/FormularioContrato/hooks/useContratoForm.js:172-180 | loading the list that submit produced restores the same flags |
| Emission.ActiveDays | src/pages/FormularioContrato/hooks/useContratoForm.js:59-65 | the on-air count of a day range is at most the range's length |
| Emission.ActiveDaysAll | src/pages/FormularioContrato/hooks/useContratoForm.js:59-65 | with every flag on, every day of the range counts |
| Emission.ActiveDaysZero | src/pages/FormularioContrato/hooks/useContratoForm.js:59-65 | the count is zero iff no day of the range is on air |
| Emission.ActiveDaysNone | src/pages/FormularioContrato/hooks/useContratoForm.js:59-65 | with every flag off the count is zero |
| Pricing.DiscountValue | src/pages/FormularioContrato/hooks/useContratoForm.js:71 | an absent or non-numeric discount counts as 0; a numeric one as its value |
| Pricing.RoundCents | src/pages/FormularioContrato/hooks/useContratoForm.js:75 | a whole number of cents within half a cent of its input |
| Pricing.RoundCentsMonotone | src/pages/FormularioContrato/hooks/useContratoForm.js:75 | rounding to cents preserves order |
| Pricing.Price | src/pages/FormularioContrato/hooks/useContratoForm.js:68-75 | never negative; 0 when monthly price/30 · on-air days − discount is not positive; otherwise that amount rounded to cents |
| Pricing.EmptySelectionPrice | src/pages/FormularioContrato/hooks/useContratoForm.js:68-75 | with no on-air day the price is 0, or the discount's absolute value rounded to cents when the discount is negative |
| Pricing.PriceMonotoneInDays | src/pages/FormularioContrato/hooks/useContratoForm.js:68-75 | more on-air days never cost less |
| Pricing.PriceAntitoneInDiscount | src/pages/FormularioContrato/hooks/useContratoForm.js:71-75 | a larger discount never costs more |
| Pricing.PriceExample | src/pages/FormularioContrato/hooks/useContratoForm.js:68-75 | 300/month for 5 days: 40 with discount 10, 50 with no discount, 0 with discount 60 |
| Calendar.NextDayNumber | src/pages/FormularioContrato/components/DisponibilidadStock.jsx:37 | the next calendar day has the next day number, also across month and year ends |
| Calendar.SetDateForward | src/pages/FormularioContrato/components/DisponibilidadStock.jsx:37 | `setDate(getDate() + 1)` is the next calendar day, also on the last day of a month or a year |
| Calendar.PrevDayNumber | src/pages/FormularioContrato/hooks/useContratoForm.js:104 | the previous calendar day has the previous day number |
| Calendar.AddDaysNumber | src/pages/FormularioContrato/hooks/useContratoForm.js:106 | moving by k days, forwards or backwards, changes the day number by k |
| Calendar.AddDaysSucc | src/pages/FormularioContrato/components/DisponibilidadStock.jsx:37 | k + 1 days on is the day after k days on |
| Calendar.AddDaysInMonth | src/pages/FormularioContrato/hooks/useContratoForm.js:106 | inside a month, adding j days to the first gives day 1 + j |
| Calendar.SetDate | src/pages/FormularioContrato/hooks/useContratoForm.js:104-106 | for k inside the month, `setDate(k)` is day k of the same month |
| Calendar.SetDateNumber | src/pages/FormularioContrato/hooks/useContratoForm.js:104-106 | `setDate(k)` lands k days after the day before the first of the month, rolling over into adjacent months |
| Calendar.SetMonth | src/pages/FormularioContrato/hooks/useContratoForm.js:103 | when the day of the month exists in month i (counted from January of the year), `setMonth(i)` keeps it there |
| Calendar.SetMonthNumber | src/pages/FormularioContrato/hooks/useContratoForm.js:103 | `setMonth(i)` lands day − 1 days after the first of month i, so a day the month lacks rolls into the next month |
| Calendar.DayOfWeek | src/pages/FormularioContrato/components/DisponibilidadStock.jsx:46 | `getDay()` is in 0..6 |
| Calendar.DayOfWeekEpoch | src/pages/FormularioContrato/components/DisponibilidadStock.jsx:46 | `getDay()` of 1 January 1970 is 4, a Thursday |
| Calendar.DayOfWeekNext | src/pages/FormularioContrato/components/DisponibilidadStock.jsx:46 | the day after has the next `getDay()`, Saturday (6) wrapping to Sunday (0) |
| Calendar.YearStep | src/pages/FormularioContrato/components/DisponibilidadStock.jsx:37 | a year's first day number follows the previous year's by that year's length |
| Calendar.LeapYearsStep | src/pages/FormularioContrato/components/DisponibilidadStock.jsx:37 | the leap-year count grows by one exactly after a leap year |
| StockAvailability.StockMap | src/pages/FormularioContrato/components/DisponibilidadStock.jsx:30 | every record's date is a key and every key's value comes from a record with that date |
| StockAvailability.LaterRecordWins | src/pages/FormularioContrato/components/DisponibilidadStock.jsx:30 | a date's value is that of its last record |
| StockAvailability.Available | src/pages/FormularioContrato/components/DisponibilidadStock.jsx:48 | the recorded count when there is one, else 100 (also for a null count) |
| StockAvailability.Required | src/pages/FormularioContrato/components/DisponibilidadStock.jsx:29 | the plan's slots per day, 0 when the plan has none |
| StockAvailability.RangeOf | src/pages/FormularioContrato/components/DisponibilidadStock.jsx:32-38 | every day number from start to end inclusive, in increasing order; empty when end < start |
| StockAvailability.DateRange | src/pages/FormularioContrato/components/DisponibilidadStock.jsx:32-38 | the `while` loop builds exactly `RangeOf` |
| StockAvailability.Entry | src/pages/FormularioContrato/components/DisponibilidadStock.jsx:44-53 | a day is selected iff it is on air; `hayStock` iff available ≥ required |
| StockAvailability.Resumen | src/pages/FormularioContrato/components/DisponibilidadStock.jsx:44-54 | exactly one entry per range date, in order |
| StockAvailability.ResumenSnoc | src/pages/FormularioContrato/components/DisponibilidadStock.jsx:44-54 | the summary of one more date appends that date's entry |
| StockAvailability.Summarize | src/pages/FormularioContrato/components/DisponibilidadStock.jsx:42-54 | the loop returns `Resumen` and a counter equal to the number of its conflict entries |
| StockAvailability.Disponibilidad | src/pages/FormularioContrato/components/DisponibilidadStock.jsx:12-54 | asks for a selection when start, end or plan is missing; shows loading while stock loads; otherwise the summary of the range with the plan's slots per day (0 when absent) and its conflict count |
| StockAvailability.Status | src/pages/FormularioContrato/components/DisponibilidadStock.jsx:83-93 | "No Emite" iff the day is not selected; "OK" iff selected with stock, showing the availability; otherwise a shortfall that is strictly positive and makes up the difference to the required slots |
| StockAvailability.ConflictsBounded | src/pages/FormularioContrato/components/DisponibilidadStock.jsx:50-52 | conflicts ≤ selected days ≤ days in the range |
| StockAvailability.SelectedIsActiveDays | src/pages/FormularioContrato/components/DisponibilidadStock.jsx:46-47 | the selected entries of consecutive days number the on-air days of that range |
| StockAvailability.RangeSelectedIsActiveDays | src/pages/FormularioContrato/components/DisponibilidadStock.jsx:44-54 | the summary's selected days are as many as the wizard's on-air days for the same range |
| StockAvailability.AmpleStockNoConflict | src/pages/FormularioContrato/components/DisponibilidadStock.jsx:48-52 | when the required slots are ≤ 100 and every recorded count meets them, no day conflicts |
| StockAvailability.NoRecordsConflicts | src/pages/FormularioContrato/components/DisponibilidadStock.jsx:48-56 | with no records, whatever the dates and flags: no conflicts when at most 100 are required, and every selected day conflicts when more are |
| StockAvailability.SameCount | src/pages/FormularioContrato/components/DisponibilidadStock.jsx:50-52 | two tests that agree on every entry count the same |
| PlanForm.SaveLines | src/pages/Planes.jsx:33 | the kept lines are the non-blank lines of the split text, verbatim, in order, none holding a newline, as many as the split text has non-blank lines (so, by `Lists.FilterUnique`, exactly the filter) |
| PlanForm.LoadForm | src/pages/Planes.jsx:18-22 | with no plan the form is unchanged; with a plan it fails unless the features are a list; otherwise the form is the plan with the features joined by newlines |
| PlanForm.HandleChange | src/pages/Planes.jsx:24-27 | only the named field changes: a checkbox stores its checked flag, any other input its text |
| PlanForm.SaveForm | src/pages/Planes.jsx:29-36 | fails unless the features are text; otherwise only the features are rewritten, to the saved lines |
| PlanForm.NewPlanSave | src/pages/Planes.jsx:8-36 | opening the form without a plan keeps the initial form; saving that form untouched succeeds with no features and every other property as initialised |
| PlanForm.SaveLinesJoin | src/pages/Planes.jsx:20-33 | joining a list of non-blank lines without newlines, then saving, returns the list |
| PlanForm.EditRoundTrip | src/pages/Planes.jsx:18-36 | loading a plan for editing and saving it unchanged returns the same plan |
| PlanForm.BlankLinesDropped | src/pages/Planes.jsx:33 | a blank line inserted into the textarea is dropped on save |
| LocutorPanel.ResolveView | src/pages/PanelLocutor.jsx:209-212 | always one of the four views; a valid query value is kept; a missing or unknown one becomes `pendientes` |
| LocutorPanel.ListOf | src/pages/PanelLocutor.jsx:431-437 | a view has a list iff it is one of the four; each of the four views shows its own list |
| LocutorPanel.FilteredData | src/pages/PanelLocutor.jsx:425-438 | empty for an unknown view; otherwise an order-preserving subsequence of the view's list that keeps a task iff its campaign or client name, lower-cased, contains the lower-cased filter, holding as many tasks as match |
| LocutorPanel.EmptyFilterKeepsNamed | src/pages/PanelLocutor.jsx:427-429 | with an empty filter, exactly the tasks with a non-empty campaign or client name are kept |
| Text.LowerChar | src/pages/PanelLocutor.jsx:426 | A–Z and À–Þ except × move 32 code points up to their lower-case letters; × and every character outside those ranges is kept |
| Text.ToLowerIdempotent | src/pages/PanelLocutor.jsx:426-429 | lower-casing an already lower-cased text changes nothing |
| Text.ContainsAt | src/pages/PanelLocutor.jsx:428-429 | `includes(t)` holds iff `t` occurs in the string starting at some position |
| Text.ToLower | src/pages/PanelLocutor.jsx:426-429 | same length, lower-cased character by character |
| Text.ContainsEmpty | src/pages/PanelLocutor.jsx:428 | every string includes the empty string |
| Text.Split | src/pages/Planes.jsx:33 | at least one piece and no piece holds the separator |
| Text.SplitWithoutSep | src/pages/Planes.jsx:33 | a text without the separator splits into itself |
| Text.SplitAtSep | src/pages/Planes.jsx:33 | splitting at the first separator gives the head piece followed by the rest's pieces |
| Text.SplitJoin | src/pages/Planes.jsx:20-33 | splitting a join of separator-free pieces returns the pieces |
| Text.JoinSplit | src/pages/Planes.jsx:20-33 | joining the pieces of a split returns the text |
| Lists.Filter | src/pages/Contratos/index.jsx:277 | no longer than its input, an order-preserving subsequence; an element is kept iff it is in the input and satisfies the test |
| Lists.FilterAll | src/pages/Planes.jsx:33 | when every element passes, the filter returns its input |
| Lists.Count | src/pages/Contratos/index.jsx:182-186 | at most the length; zero iff no element passes |
| Lists.CountIsFilterLength | src/pages/Contratos/index.jsx:182-186 | the count is the length of the filtered list |
| Lists.SubsequenceCount | src/pages/Contratos/index.jsx:277 | a subsequence whose elements all pass holds at most as many elements as pass |
| Lists.FilterUnique | src/pages/Contratos/index.jsx:277 | a subsequence of passing elements as long as the count of passing elements is exactly the filter, so the filters' three clauses determine their result |
| Lists.ExclusiveCountsBounded | src/pages/Contratos/index.jsx:182-186 | counts of two mutually exclusive tests sum to at most the length |
| Lists.CountAppend | src/pages/FormularioContrato/components/DisponibilidadStock.jsx:50-52 | appending an element adds one to the count iff it passes |
| Lists.CountLast | src/pages/FormularioContrato/components/DisponibilidadStock.jsx:50-52 | the count of a non-empty list is that of its prefix plus its last element's contribution |
| Lists.CountMonotone | src/pages/FormularioContrato/components/DisponibilidadStock.jsx:50-52 | a test implied by another counts at least as many elements |

## Left out

- HTTP calls, the 500 ms stock debounce, `Promise.all` loading, `useEffect` ordering and all rendering (tables, modals, alerts, icons) are left out: they are I/O and framework scheduling. Their inputs (plans, stock records, "now", "today") are parameters.
- The string `Date` parsing is left out. Dates arrive as `Option<Date>` (status deriver: absent, invalid or a millisecond timestamp), so a wizard date string that does not parse is not represented.
- `toISOString()` keys a day in UTC while dates are built at local midnight. This holds for the stock keys and for the `formatDate` that writes the resolved start and end dates (`ContractForm.ContratoForm.ApplyDuration`). The model keeps each day's own calendar date, so a timezone-shifted date is not captured.
- Daylight-saving effects on `Math.ceil` of the millisecond difference are left out. The total days come from day numbers.
- `ContractForm.ScheduleOf`: the price is exact rounding to cents of a real, not `parseFloat`/`toFixed(2)` on IEEE doubles; its result is a number, not the string `'0.00'`.
- `ContractForm.ContratoForm.GoToStep`: promises the step invariant only for a target ≥ 1, because the source does not guard lower targets.
- `Text.LowerChar`: lower-cases ASCII and the Latin-1 upper-case block only. Other Unicode case mappings are left out.
- The client combo-box options, `handleChange`, `handleSelectPlan`, the document lookup and the data loaded for editing are left out, apart from rebuilding the weekday flags (`Emission.FromNames`). Their work is I/O or a plain field copy.
- `ContractForm.ContratoForm.ApplyDuration`: the duration value is an integer. `parseInt(duracionValor, 10)` truncating text such as `2.5` or `3x`, and the Invalid Date a non-numeric value produces, are not modelled.
- `Emission.FromNames`: only the seven keys set a flag. In the source, `dia in newDiasEmision` is also true for a name the object inherits (such as `toString`), which would add an extra key; stored lists are taken to hold weekday names only.
- `Field.Key` only names the JSON keys; it carries no property.
- The payload is sent as JSON and the server's answer is not modelled (I/O).
- LocutorTareas is not part of this model; it has no route and repeats the panel's filter.
- The numeric formatting of the conflict heading, the shortfall text and the locale date labels is left out. The model returns the numbers they show.
- PDF and CSV export, authentication, routing and the CRUD-only screens are left out. They hold no computation over the contract data.
