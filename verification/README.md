# Fraud check classifier, modelled in Dafny

The repository is a small web service with one real operation, `POST /api/fraudcheck`.
Given a threshold and a list of loan applications (hashed postcode, timestamp, amount),
it returns postcodes whose applications add up to more than the threshold within
24 hours. More precisely, a postcode is returned exactly when some run of its
applications, in arrival order, goes strictly over the threshold. A run is some
application `i` of the postcode together with the applications after it, in arrival
order, up to some application `j` (possibly `i` itself). Every application after `i`, up
to and including `j`, lies less than 24 hours from application `i`.
`FraudCheckMeaning.FlaggedIff` proves this.
When a postcode's applications arrive in time order, this is the plain reading. Out of
order, an application a day away from an anchor closes that anchor's window for good,
so two applications close in time can go unsummed (`FraudCheckScenarios.ArrivalOrder`).
The logic lives in the loop of `FraudCheck::fraudcheck`. That loop makes one
pass over the applications. For each postcode it keeps a list of open windows. Each window
is anchored at an earlier application's time and holds a running sum. The loop returns the
flagged postcodes in the order they were detected.

This project models that loop and proves properties of it.

- `fraud_check.dfy` (module `FraudCheck`): the data model (`Application`, `Window`,
  `Scan`, `State`) and the classifier as pure functions.
  - `ScanWindows` is the inner scan over one postcode's windows.
  - `Step` is one iteration of the outer loop.
  - `Run` and `FraudulentPostcodes` are the whole pass.
  - Independent reference definitions (`Live`, `Accumulate`, `FirstBreach`,
    `BreachedWindows`) say what the scan must leave behind.
- `fraud_check_properties.dfy` (module `FraudCheckProperties`): lemmas about whole
  batches. They cover append-only output, no duplicates, provenance of every entry, the
  single-record breach, the window invariant, and a never-flagged bound.
- `fraud_check_loop.dfy` (module `FraudCheckLoop`): the same algorithm as the endpoint's two
  nested `foreach` loops, written as a `for` loop and a `while` loop, including the early exit out of both loops. Each
  loop is proved equal to the functional model.
- `fraud_check_meaning.dfy` (module `FraudCheckMeaning`): the output over a whole batch,
  in terms of runs of each postcode's applications, in both directions. While a postcode is
  unflagged, its windows are exactly its runs still open, each holding the run's sum.
- `fraud_check_scenarios.dfy` (module `FraudCheckScenarios`): the endpoint's 15-application
  regression batch, plus boundary cases for the threshold, the window length and arrival
  order.

Modelling choices:

- Times are integer seconds.
- Amounts and the threshold are integer hundredths (150.75 is `15075`), so no floating point
  is involved.
- A window is stale when at least 86400 seconds separate its anchor from the new
  application, in either direction. This is what `DateTime::diff(...)->format('%a')` gives:
  a count of whole elapsed days, which is non-zero exactly then.
- Both comparisons with the threshold are strict (`>`).
- The inner `foreach` iterates over a copy of the window list. So dropping a stale window
  (`unset`) does not disturb the scan. It is modelled as a recursive filter-and-update over
  the list.
- A breach leaves both loops at once (`continue(2)`). In that case the windows after the
  breaching one are left as they were, and no new window is opened.
- Otherwise the application always opens a new window at the end of the list. This happens
  even when its amount was also added to older live windows.

The window test counts whole elapsed days, not calendar dates. The regression batch relies
on this: postcode `d958…` has applications at 18:04:20 and at 13:12:11 the next day, and it
is flagged. `FraudCheckScenarios.WindowBoundary`
pins down the elapsed-time rule. Two applications two hours apart across midnight are summed.
Two applications exactly 24 hours apart are not.

## Model

| member | source | states |
|---|---|---|
| FraudCheck.ElapsedDays | app/Http/Controllers/FraudCheckController.php:75-79 | the whole days elapsed between two instants, in either order: `d * 86400 <= abs(a - b) < (d + 1) * 86400` |
| FraudCheck.StaleIffWholeDay | app/Http/Controllers/FraudCheckController.php:75-82 | a window is dropped exactly when the whole-day count between its anchor and the application is non-zero, i.e. when at least 24 hours have elapsed |
| FraudCheck.LiveMembers | app/Http/Controllers/FraudCheckController.php:79-82 | the windows kept by the scan are exactly the stored windows that are not stale |
| FraudCheck.FirstBreach | app/Http/Controllers/FraudCheckController.php:74-89 | the scan position at which the loop stops: no earlier window breaches, and the window there is live and strictly over the threshold once the amount is added |
| FraudCheck.ScanWindowsSpec | app/Http/Controllers/FraudCheckController.php:74-90 | the scan breaches exactly when some live window plus the amount exceeds the threshold. Without a breach, stale windows are gone and every live window has exactly the amount added, in order. With one, the scan stops at the first breaching window and leaves the later windows untouched |
| FraudCheck.StepFlags | app/Http/Controllers/FraudCheckController.php:52-61 | a step appends at most its own postcode. It appends nothing for a postcode already flagged. It always flags a postcode whose single amount is strictly over the threshold |
| FraudCheck.StepFrame | app/Http/Controllers/FraudCheckController.php:67-94 | processing an application changes no other postcode's windows |
| FraudCheck.StepNewWindow | app/Http/Controllers/FraudCheckController.php:67-94 | a processed application that flags nothing leaves its postcode's live windows with its amount added and the stale ones gone, plus one new window at the end anchored at its time with its own amount. The first-window branch is the empty-list case |
| FraudCheckLoop.ScanLoop | app/Http/Controllers/FraudCheckController.php:74-90 | the inner loop over a snapshot of the windows, with its drop, accumulate and early exit, computes exactly the functional scan |
| FraudCheckLoop.FraudCheckLoop | app/Http/Controllers/FraudCheckController.php:45-97 | the nested loops, including the exit out of both loops on a breach, return exactly the postcodes of the functional fold |
| FraudCheckProperties.AppendOnly | app/Http/Controllers/FraudCheckController.php:45-97 | what is flagged after any prefix of the batch is a prefix of the final output: the output is append-only |
| FraudCheckProperties.FlagStep | app/Http/Controllers/FraudCheckController.php:52-61 | application `n` either flags nothing or appends its own postcode, so with `AppendOnly` the output is ordered by detection |
| FraudCheckProperties.OutputDistinct | app/Http/Controllers/FraudCheckController.php:52-55 | the output never lists a postcode twice |
| FraudCheckProperties.OutputFromInput | app/Http/Controllers/FraudCheckController.php:47-59 | every flagged postcode is the postcode of some application of the batch |
| FraudCheckProperties.OverThresholdFlagged | app/Http/Controllers/FraudCheckController.php:58-61 | every application whose amount alone is strictly over the threshold has its postcode in the output |
| FraudCheckProperties.SingleApplication | app/Http/Controllers/FraudCheckController.php:58-73 | a batch of one application flags its postcode exactly when the amount is strictly over the threshold; an amount equal to the threshold gives `[]` |
| FraudCheckProperties.TwoApplications | app/Http/Controllers/FraudCheckController.php:58-94 | two applications of one postcode, each within the threshold, flag it exactly when they are less than 24 hours apart and their sum is strictly over the threshold |
| FraudCheckProperties.NoBreachInStep | app/Http/Controllers/FraudCheckController.php:83-94 | when a processed application flags nothing, its amount and every live window plus its amount are within the threshold |
| FraudCheckProperties.StepWindowsWithin | app/Http/Controllers/FraudCheckController.php:67-94 | one step keeps the invariant that no window of an unflagged postcode holds more than the threshold |
| FraudCheckProperties.RunWindowsWithin | app/Http/Controllers/FraudCheckController.php:45-97 | after any batch, every window of every unflagged postcode holds at most the threshold |
| FraudCheckProperties.WithinTotalNeverFlagged | app/Http/Controllers/FraudCheckController.php:45-97 | a postcode whose applications are non-negative and sum to at most the threshold over the batch is never flagged, and none of its windows exceeds that total |
| FraudCheckMeaning.ScanBreachIff | app/Http/Controllers/FraudCheckController.php:74-90 | when a postcode's windows are its open runs, the scan for its next application breaches exactly when some run starting earlier and ending at that application goes strictly over the threshold |
| FraudCheckMeaning.AnchoredStep | app/Http/Controllers/FraudCheckController.php:79-85 | one application drops each open run it is a day or more from and adds its amount to every other one, so the windows stay the open runs with their sums |
| FraudCheckMeaning.RunMeaning | app/Http/Controllers/FraudCheckController.php:45-97 | after any batch, a postcode is flagged exactly when some run among its processed applications went over the threshold. While it is not flagged, its window list is exactly its open runs, in order, each holding the run's sum |
| FraudCheckMeaning.FlaggedIff | app/Http/Controllers/FraudCheckController.php:45-97 | the documented promise (lines 20-21), made exact. A postcode is in the output if and only if, for some `i <= j`, its applications `i..j` in arrival order all lie less than 24 hours from application `i` and sum strictly over the threshold |
| FraudCheckMeaning.ApplicationsOfMembers | app/Http/Controllers/FraudCheckController.php:47-50 | the per-postcode view of the batch holds exactly the applications with that postcode |
| FraudCheckScenarios.Regression | tests/Unit/FraudCheckControllerTest.php:82-105 | the 15-application batch at threshold 150.75 yields exactly `[9976…, d958…, 5fce…]` in that order |
| FraudCheckScenarios.ThresholdBoundary | tests/Unit/FraudCheckControllerTest.php:65-70 | one application of 100.00 at threshold 100 yields `[]`, as the test checks. The other half is an added boundary case, from the strict `>` at `FraudCheckController.php:57-60`: at threshold 99 the same application yields its postcode |
| FraudCheckScenarios.WindowBoundary | app/Http/Controllers/FraudCheckController.php:75-82 | two applications two hours apart across midnight are summed. Two exactly 24 hours apart are not. Two four days apart are not |
| FraudCheckScenarios.ArrivalOrder | app/Http/Controllers/FraudCheckController.php:74-94 | applications of 80.00 at 00:00:00, 10.00 a day and almost four hours later, and 80.00 at 00:00:50 give `[]` at 150.75: the second drops the first window. The same three in time order are flagged |

## Left out

- Request handling and the two 400 responses ("threshold must exist and be numeric", "applications must exist and be in an array"; `FraudCheckController.php:30-44`): this is framework plumbing. The model takes a threshold and an already-parsed, possibly empty list of applications.
- Serialising the output as JSON with status 200 (`FraudCheckController.php:97`): the model returns the sequence itself.
- `app/Http/Controllers/FraudIdentificationController.php`: it only validates its input and returns `[]`.
- Splitting each application string on `", "` and parsing its fields with `new \DateTime` and PHP numeric-string coercion (`FraudCheckController.php:49, 57, 63`): these are library and language semantics. The model receives `(postcode, seconds, hundredths)` records.
- Floating-point amounts and threshold: they are integers in hundredths, so rounding in PHP float arithmetic is not modelled.
- Time zones and daylight-saving effects on `DateTime::diff`: timestamps are plain integer seconds.
- Idempotence of the endpoint: the model is a pure function, so re-running it on the same input trivially gives the same output. No lemma is stated for it.
- FraudCheckProperties.WithinTotalNeverFlagged: bounds a postcode by its total over the whole batch, assuming non-negative amounts. This is a coarse corollary. The exact statement, for any amounts, is `FraudCheckMeaning.FlaggedIff`. `FraudCheckMeaning.TotalIsSum` shows that the total used here is the sum of the postcode's applications that `FlaggedIff` ranges over.
