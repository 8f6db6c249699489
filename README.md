# voto-valido, modelled in Dafny

A model of the logic behind the voto-valido age form (`script.js`). A visitor
enters a full name and a birth date. The submit handler trims the name and
validates both fields, showing one inline error per failing check. When the
input is accepted, it computes the visitor's current age and whether they are
of age (18 or more). It also computes their age on the election day,
1 October 2026, and classifies that age as *nao-pode-votar* (below voting
age), *voto-facultativo* (optional voting) or *voto-obrigatorio* (mandatory
voting). Finally it displays the result block.

Modules, one per component of the script:

- `Calendar` (calendar.dfy): dates as `(year, month, day)` triples with months numbered 0–11, as `getMonth` returns them. Dates are ordered lexicographically. Also anniversaries and the election date `Date(2026, 9, 1)`.
- `AgeCalc` (age.dfy): `calcularIdadeNaData`. The function `Age` is the specification and `AgeAtDate` is the step-by-step computation with its decrement.
- `Eligibility` (eligibility.dfy): `determinarSituacaoEleitoral`, modelled as written. It is a chain of guarded branches with no final `else`, so it returns `Option<Category>`, and its totality is proved. Also each category's tag, message and icon.
- `Validation` (validation.dfy): JavaScript's `trim`, the UTF-16 `length` used by the name check, and the date checks of `validarDados`.
- `Presenter` (presenter.dfy): the result rendering of `exibirResultado`, and the class `Page`, which holds the three display slots (name error, date error, result). `mostrarErro`, `ocultarErros` and `exibirResultado` update those slots in place.
- `Controller` (controller.dfy): `validarDados` over a `Page`, `verificarIdade`, and the submit handler, with the display it must leave behind.
- `Wrappers` (wrappers.dfy): the `Option` type.

Two details of the name check, as JavaScript runs it:

- The name check uses JavaScript's `length`, which counts UTF-16 code units. A single character outside the Basic Multilingual Plane therefore passes the "at least 2 characters" check.
- The empty-name test is subsumed by the length test (`NameValid`).

## Model

| member | source | states |
|---|---|---|
| Calendar.ElectionDateIsOctoberFirst | script.js:122-123 | the election date is the calendar date 1 October 2026, with month index 9 |
| Calendar.MonthDayBefore | script.js:82 | no contract of its own; the decrement condition on (month, day) as written; its meaning is stated by AgeYearDifference and Age's anniversary bracket |
| Calendar.Before | script.js:56 | no contract of its own; the day order standing in for the `>` comparison, field by field, year first; its meaning is stated by BeforeTrichotomy and BeforeTransitive |
| Calendar.BeforeTrichotomy | script.js:56 | the date order used for the "in the future" test is a strict total order |
| Calendar.BeforeTransitive | script.js:56 | the date order is transitive |
| AgeCalc.Age | script.js:75-87 | the age `a` is the number for which the `a`-th birthday has come round by the reference date and the `(a+1)`-th has not |
| AgeCalc.AgeAtDate | script.js:75-87 | computing the year difference and then decrementing yields `Age` |
| AgeCalc.AgeUnique | script.js:75-87 | only one number satisfies that birthday bracket, so it determines the age |
| AgeCalc.BirthdayPassedIff | script.js:76-84 | the `n`-th birthday has come round by the reference date exactly when `n` ≤ age |
| AgeCalc.AgeYearDifference | script.js:76-84 | the age is the year difference, minus 1 exactly when the reference (month, day) comes lexicographically before the birth (month, day) |
| AgeCalc.AgeOnBirthday | script.js:82 | on the birthday itself there is no decrement, because the day comparison is strict |
| AgeCalc.AgeExamples | script.js:82-83 | births on 1 and 2 October 2000 give ages 26 and 25 on the election date |
| AgeCalc.AgeNonNegative | script.js:76-86 | when birth ≤ reference, the age is ≥ 0 |
| AgeCalc.AgeMonotone | script.js:76-86 | the age never decreases as the reference date moves forward |
| AgeCalc.BirthdaysPassedUpTo | script.js:76-86 | of the birthdays 1..k, exactly min(k, age) have come round |
| AgeCalc.AgeCountsBirthdays | script.js:75-87 | the age equals the number of birthdays that have come round since birth |
| Eligibility.Classify | script.js:92-109 | the if/else-if chain without a final `else` yields a category for every integer age |
| Eligibility.ClassifyTable | script.js:93-107 | < 16 gives nao-pode-votar; 16–17 or ≥ 70 gives voto-facultativo; 18–69 gives voto-obrigatorio; each in both directions |
| Eligibility.ClassifyBoundaries | script.js:93-107 | the boundary ages 15, 16, 17, 18, 69 and 70 fall in their categories |
| Eligibility.Tag | script.js:94-107 | no contract of its own; the `tipo` string of each category as written; its meaning is stated by TagInjective |
| Eligibility.Message | script.js:94-107 | no contract of its own; the `mensagem` string of each category as written, the text the eligibility panel displays |
| Eligibility.TagInjective | script.js:94-107 | different categories have different `tipo` tags |
| Eligibility.IconForTag | script.js:160-161 | no contract of its own; the nested tag comparison as written; its meaning is stated by IconPerCategory and Presenter.IconsDistinguish |
| Eligibility.IconPerCategory | script.js:160-161 | the nested tag comparison gives the ballot box to voto-obrigatorio, the clipboard to voto-facultativo and the hourglass to nao-pode-votar |
| Validation.IsJsWhitespace | script.js:23 | no contract of its own; the WhiteSpace and LineTerminator characters that `trim` removes, listed as written in the ECMAScript standard |
| Validation.SkipLeading | script.js:23 | the returned index is past a run of whitespace only and sits on a non-whitespace character or at the end |
| Validation.SkipTrailing | script.js:23 | everything from the returned index up to the bound is whitespace, and the character just before it is not |
| Validation.Trim | script.js:23 | the trimmed name is a slice of the raw name, with only whitespace outside it and no whitespace at either end |
| Validation.TrimIdempotent | script.js:23 | trimming an already trimmed name changes nothing |
| Validation.TrimExample | script.js:23 | "  A " trims to "A" |
| Validation.Utf16Length | script.js:43 | the JavaScript length lies between the number of characters and twice that number |
| Validation.Utf16LengthOfBmp | script.js:43 | for text in the Basic Multilingual Plane, the JavaScript length is the number of characters |
| Validation.NameValid | script.js:43 | the name passes exactly when its JavaScript length is at least 2; `NameValidIff` adds the character count for BMP names |
| Validation.NameValidIff | script.js:43-46 | for names within the Basic Multilingual Plane, the name passes exactly when it has at least 2 characters |
| Validation.NameExamples | script.js:43-46 | "A", "" and "  A " (after trimming) are refused; "Ana" is accepted |
| Validation.DateIssues | script.js:49-67 | a missing date gives `Missing`, a date after now `InFuture`, a birth year more than 150 years back `Implausible`; the date is accepted exactly when none of these holds; at most one date error arises |
| Validation.InputValid | script.js:37-69 | the submission is valid exactly when the name's length is at least 2, the birth date is present and not after now, and its year is at most 150 years back |
| Validation.BothChecksCanFail | script.js:37-69 | the name check and the date check fail together on a short name with no date, and the submission is then invalid |
| Validation.DateExamples | script.js:49-67 | a birth date of today is accepted; tomorrow is in the future; a birth year 150 years back passes and 151 does not |
| Validation.ValidDateAgeRange | script.js:56-66 | an accepted birth date gives a current age between 0 and 150 |
| Validation.PlausibilityComparesYears | script.js:61-66 | the 150-year check compares years only, so a person aged 150 can be refused |
| Presenter.StatusLabel | script.js:146-154 | no contract of its own; the "maior de idade" / "menor de idade" statement as written; its meaning is stated by LabelsDistinguish |
| Presenter.Render | script.js:141-172 | no contract of its own; the values interpolated into the result block (status class and label, name, ages, tag, icon, message), with the name held as text (see Left out); its meaning is stated by RenderDistinguishes |
| Presenter.LabelsDistinguish | script.js:146-154 | the "maior de idade" and "menor de idade" statements differ, so the label identifies the majority status |
| Presenter.IconsDistinguish | script.js:160-161 | two categories get the same icon exactly when they are the same category |
| Presenter.RenderDistinguishes | script.js:141-172 | the result block's icon and panel tag identify the category, and its label identifies the majority status |
| Presenter.Page.constructor | script.js:10-12 | the three slots the script looks up start hidden and empty; this is an assumption about the loaded page's markup, which the script does not set, and nothing depends on it because `Submit` holds from any valid page |
| Presenter.Page.HideAll | script.js:201-205 | both error slots and the result slot are hidden, and their contents are kept |
| Presenter.Page.ShowError | script.js:193-196 | the chosen error slot shows the message, and the other slots are unchanged |
| Presenter.Page.ShowReport | script.js:175-179 | the result slot holds the rendered report and is displayed, and the error slots are unchanged |
| Controller.DateMessage | script.js:50-64 | no contract of its own; the message each date issue shows (lines 50, 57 and 64) as written; Validate and ExpectedView state which one is displayed |
| Controller.Validate | script.js:36-70 | every slot is hidden first; the result is valid exactly when all checks pass; the name slot shows exactly when the name is invalid and the date slot exactly when a date check fails, with that check's message; the result stays hidden |
| Controller.VerifyAge | script.js:114-131 | the report holds the current age, the majority flag, the age on 1 October 2026, and the category of that age |
| Controller.ReportOf | script.js:118-127 | no contract of its own; the current age, majority flag, election-day age and category as computed; its meaning is stated by VerifyAge, AdultIffEighteenthBirthday, CategoryByBirthdays and AcceptedReportRange |
| Controller.AdultIffEighteenthBirthday | script.js:119-120 | the majority flag holds exactly when the 18th birthday has come round by now |
| Controller.CategoryByBirthdays | script.js:122-127 | the category is below voting age exactly when the 16th birthday falls after the election; mandatory exactly when the 18th has come round by then and the 70th has not; optional otherwise |
| Controller.AcceptedReportRange | script.js:114-124 | for an accepted date, the current age lies in 0..150; if now precedes the election, the age at the election is at least the current age |
| Controller.ExpectedView | script.js:19-31 | after a submission, the result shows exactly when the input is valid; otherwise at least one error shows and never the result; each error slot shows exactly when its check fails; the result slot holds the rendered report of the trimmed name, the name slot the name message, and the date slot the message of the failing date check |
| Controller.Submit | script.js:19-31 | the page displays `ExpectedView` of the inputs |
| Controller.ResubmitShowsSame | script.js:19-31 | submitting the same inputs twice leaves the same display |

## Left out

- DOM lookups, event wiring, `preventDefault`, and the date field's `max` attribute (script.js:7-20, 209): these are browser plumbing.
- Parsing of the date field and JavaScript `Date` behaviour. The field is either empty (`None`) or an already parsed `(year, month, day)` triple. The source parses the field as UTC midnight and reads it back with local-time getters; time zones are not modelled.
- The clock. "Now" is a parameter with day resolution, so the future-date test compares calendar days and ignores the time of day.
- `verificarIdade` reads the clock a second time (script.js:116). The model uses the same `now` for validation and for computation.
- Calendar validity of the birth date, such as rejecting 31 February. The source never checks it because the date picker guarantees it. `Controller.Submit` states it as a precondition, and `Controller.ResubmitShowsSame` repeats it; no proof uses it.
- HTML markup, the result block's class reset, and the delayed smooth scroll (script.js:138, 143-158, 163-172, 181-187). The rendered block is modelled as the values interpolated into it (`ResultView`).
- Presenter.Render: the source inserts the name into the result block as HTML, without escaping (script.js:145, 153, 178), while `ResultView` holds it as plain text. The two agree only for names containing no `<` or `&`. A name such as `<b>Al</b>` passes the name check and is displayed as markup, and markup with event handlers would run script; the model does not capture this.
