# gainStack.io: a Dafny model of the workout tracker's core

gainStack.io is a workout tracker. A React front end sends logged sets to an
Express back end, which stores them with Mongoose. This project models the
parts of it that compute something rather than move data about:

- **The plate calculator** (`calculatePlates`, `formatPlateDisplay`). The
  solver sorts the caller's plate array in place, largest first. It then
  fills one side of the bar greedily and rounds the leftover to the
  hundredth after every plate. The display counts the plates in a plain
  object, renders its entries as `{count}x{plate}kg` and joins them with
  ` + `.
- **The workout controller.** `createWorkout` checks the request for
  missing fields and builds the record it would store. `getImbalanceAnalysis`
  groups the unilateral workouts by title. For each exercise it computes the
  left and right average work, the signed percentage imbalance and the
  stronger side.
- **The three reducers.** These are the workout list, the rest timer
  (together with the provider effect's choice between scheduling a tick,
  stopping the timer and doing nothing) and the logged-in user.
- **The rules inside components.** This covers the form's `handleSubmit`
  (record building, validation and the rest-time rule). It covers the rest
  timer widget (the `m:ss` clock, colour bands, progress bar and end
  messages), the imbalance page (colour bands, marker, recommendation and
  summary counts) and the training volume of one workout and of the list.

JavaScript numbers are modelled as exact reals. The one IEEE-754 behaviour
the code can reach is modelled explicitly as a `Number` datatype: NaN and
the infinities from a division by zero. `Math.round(x * 100) / 100` is
`Round2`, whose halves round towards plus infinity. Property order of plain
objects follows section 10.1.11.1 of ECMA-262 (OrdinaryOwnPropertyKeys):
array-index keys come first in ascending numeric order, then the other
string keys in insertion order. Both `formatPlateDisplay` and
`getImbalanceAnalysis` depend on that order.

The modules follow the files:

| module | models |
|---|---|
| `JsNumber`, `JsString`, `JsObject` | the language behaviour the code relies on: rounding, division, `String(n)`, `padStart`, `trim`, own-key order of plain objects |
| `PlateCalculator`, `PlateDisplay` | frontend/src/utils/plateCalculator.js |
| `WorkoutController` | backend/controllers/workoutController.js |
| `WorkoutContext`, `RestTimerContext`, `AuthContext` | the reducers of frontend/src/contexts/ |
| `WorkoutForm`, `RestTimer`, `WorkoutDetails` | frontend/src/components/ |
| `Analysis`, `Home` | frontend/src/pages/ |

## Model

| member | source | states |
|---|---|---|
| `PlateCalculator.CalculatePlates` | frontend/src/utils/plateCalculator.js:1-18 | The plates for one side are the greedy fill of `(total - bar) / 2` over the denominations sorted largest first. With load above the bar, the caller's array is left sorted largest first. Otherwise the array is untouched. |
| `PlateCalculator.CalculatePlatesWithDefaults` | frontend/src/components/PlateCalculator.jsx:6-10 | For the bar the user picked and a fresh array of the default plates, the result is the greedy fill over 25, 20, 15, 10, 5, 2.5 and 1.25. |
| `PlateCalculator.SortDescending` | frontend/src/utils/plateCalculator.js:9 | The in-place sort leaves the array holding the unique largest-first permutation of its old contents. |
| `PlateCalculator.SortDesc` | frontend/src/utils/plateCalculator.js:9 | The comparator `b - a` orders the numbers largest first, keeps the same multiset and keeps the length. |
| `PlateCalculator.SortedPermutationUnique` | frontend/src/utils/plateCalculator.js:9 | Two largest-first sequences with the same multiset are equal, so the sort's result is determined. |
| `PlateCalculator.LoadSide` | frontend/src/utils/plateCalculator.js:9-15 | The `forEach` with its inner `while` pushes exactly the plates of the greedy fill, in order. |
| `PlateCalculator.Greedy` | frontend/src/utils/plateCalculator.js:9-15 | Every plate taken is an available denomination. The remainder never exceeds the starting load, stays non-negative for a non-negative load, and ends below every denomination. |
| `PlateCalculator.GreedyTake` | frontend/src/utils/plateCalculator.js:10-13 | While the current plate fits, one more is pushed and the remainder becomes `Round2(w - p)`, which strictly lowers the loop's measure. |
| `PlateCalculator.BarOnly` | frontend/src/utils/plateCalculator.js:2-4 | A total at or below the bar weight gives no plates. |
| `PlateCalculator.PlatesWellFormed` | frontend/src/utils/plateCalculator.js:9-16 | Every returned plate is an available denomination and the list is largest first. The leftover per side is non-negative and below every denomination. |
| `PlateCalculator.GreedyNonIncreasing` | frontend/src/utils/plateCalculator.js:9-14 | Denominations taken largest first give plates that come out largest first. |
| `PlateCalculator.NothingFits` | frontend/src/utils/plateCalculator.js:10 | When no denomination fits, no plate is pushed and the load is the leftover. |
| `PlateCalculator.PlatesAccountForLoad` | frontend/src/utils/plateCalculator.js:6-14 | When the load per side and the denominations are whole hundredths, the plates plus the leftover add up to `(total - bar) / 2` exactly. |
| `PlateCalculator.GreedyExact` | frontend/src/utils/plateCalculator.js:10-14 | On the hundredths grid the rounding is exact, so the plates taken plus the remainder equal the starting load. |
| `PlateCalculator.DefaultHundred` | frontend/src/utils/plateCalculator.js:1-17 | 100 kg on a 20 kg bar with the default plates gives `[25, 15]`. |
| `PlateCalculator.DefaultSixty` | frontend/src/utils/plateCalculator.js:1-17 | 60 kg on a 20 kg bar with the default plates gives `[20]`. |
| `PlateDisplay.CountOccurrences` | frontend/src/utils/plateCalculator.js:25-28 | The counting loop produces the tally: one property per distinct key, created on first sight, holding its number of occurrences. |
| `PlateDisplay.FormatPlateDisplay` | frontend/src/utils/plateCalculator.js:20-33 | The result is "Just the bar" for no plates. Otherwise it is the counted entries in own-key order, rendered as `{count}x{plate}kg` and joined with ` + `. |
| `PlateDisplay.TallyCounts` | frontend/src/utils/plateCalculator.js:25-28 | A key is counted if and only if it occurs, and its count is its number of occurrences. |
| `PlateDisplay.TallyOrder` | frontend/src/utils/plateCalculator.js:25-28 | The counter's keys are created in the order of their first occurrence. |
| `PlateDisplay.TallyTotal` | frontend/src/utils/plateCalculator.js:25-28 | The counts add up to the number of plates. |
| `PlateDisplay.JustTheBarOnlyWhenEmpty` | frontend/src/utils/plateCalculator.js:21-23 | The display reads "Just the bar" if and only if there are no plates. |
| `PlateDisplay.DisplayCountsAreMultiplicities` | frontend/src/utils/plateCalculator.js:25-28 | The counter has a property for a weight's printed form if and only if the weight is among the plates. Its value is the number of such plates. |
| `PlateDisplay.DisplayCountsOnlyPlates` | frontend/src/utils/plateCalculator.js:25-28 | Every property of the counter is the printed form of some plate. |
| `PlateDisplay.DisplayListsEachWeightOnce` | frontend/src/utils/plateCalculator.js:25-32 | Each counted weight is listed exactly once and the counts add up to the number of plates. |
| `PlateDisplay.WholeWeightsAscending` | frontend/src/utils/plateCalculator.js:30-32 | Of two whole-number weights, the smaller is listed first. |
| `PlateDisplay.WholeWeightsFirst` | frontend/src/utils/plateCalculator.js:30-32 | Whole-number weights are listed before fractional ones. |
| `PlateDisplay.OtherWeightsInFirstSeenOrder` | frontend/src/utils/plateCalculator.js:26-32 | Fractional weights are listed in the order the plates first show them. |
| `PlateDisplay.TwoEntries` | frontend/src/utils/plateCalculator.js:30-32 | With two listed weights, the display is the two rendered entries joined by ` + ` in listing order. |
| `PlateDisplay.DisplayTwentyFiveFifteen` | frontend/src/utils/plateCalculator.js:25-32 | The plates `[25, 15]` display as "1x15kg + 1x25kg". |
| `PlateDisplay.LargestFirstEntries` | frontend/src/utils/plateCalculator.js:25-28 | Counted in first-seen order, largest-first plates give strictly decreasing distinct weights, each with its multiplicity. |
| `PlateDisplay.LargestFirstForLoad` | frontend/src/utils/plateCalculator.js:1-28 | The solver's output, counted in first-seen order, lists its weights strictly largest first. |
| `PlateDisplay.LargestFirstTwentyFiveFifteen` | frontend/src/utils/plateCalculator.js:25-32 | The largest-first display of `[25, 15]` is "1x25kg + 1x15kg". |
| `JsObject.OwnKeyOrderSpec` | frontend/src/utils/plateCalculator.js:30 | `Object.entries` lists a permutation of the distinct keys: the array-index keys in ascending order, then the other keys in insertion order. |
| `JsObject.OtherKeysOrder` | frontend/src/utils/plateCalculator.js:30 | Two non-index keys keep their relative insertion order. |
| `JsString.NumberToStringInjective` | frontend/src/utils/plateCalculator.js:27 | Different weights get different property keys, so the counter never merges two denominations. |
| `JsString.NumberKeyIsIndex` | frontend/src/utils/plateCalculator.js:27 | A weight's printed key is an array index if and only if the weight is a whole number below 2^32 - 1, and it then reads back as that number. |
| `WorkoutController.CollectEmptyFields` | backend/controllers/workoutController.js:38-44 | `title` is flagged iff the title is falsy. `load` and `reps` are flagged iff they are falsy and the request is not unilateral. `unilateralFields` is flagged iff the request is unilateral and a side field is falsy. Flags come in check order, and the list is empty iff the request is complete. |
| `WorkoutController.CreateWorkout` | backend/controllers/workoutController.js:38-69 | The request is rejected with the 400 message iff it is incomplete. The rejection's field list flags `title` iff the title is falsy, `load` and `reps` iff they are falsy on a bilateral request, and `unilateralFields` iff a side field is falsy on a unilateral request, in check order. Otherwise the record to store is built as `Stored` describes. |
| `WorkoutController.StoredRecordComplete` | backend/controllers/workoutController.js:54-69 | A stored record has a title and a truthy sets count. A unilateral record has null load and reps and all four side fields truthy. A bilateral record has no side fields and a truthy load and reps. |
| `WorkoutController.Accumulate` | backend/controllers/workoutController.js:133-151 | As written, the `forEach` leaves `analysis` equal to the grouping by title of the workouts whose titles are not names every object inherits. A workout with such a title creates no entry. |
| `WorkoutController.GroupIsPerExercise` | backend/controllers/workoutController.js:133-151 | There is exactly one entry per distinct title. Each entry holds the sums over that exercise's workouts. |
| `WorkoutController.ExerciseCount` | backend/controllers/workoutController.js:150 | An exercise's count is the number of workouts with that title. |
| `WorkoutController.GroupCountsPositive` | backend/controllers/workoutController.js:136-150 | Every entry has count at least 1, so the averages never divide by zero. |
| `WorkoutController.GetImbalanceAnalysis` | backend/controllers/workoutController.js:133-167 | As written, the response is one summary per grouped title, in own-key order. It equals the intended response for the workouts whose titles are not inherited names. |
| `WorkoutController.Summarize` | backend/controllers/workoutController.js:154-166 | A result keeps its exercise's title. Each average is a whole number of hundredths within half a hundredth of total / count. The imbalance is NaN iff both totals are 0. |
| `WorkoutController.AnalysisPerExercise` | backend/controllers/workoutController.js:133-167 | The response names each distinct title exactly once. Each result is the summary of that title's totals, whose count is its number of workouts. |
| `WorkoutController.SummarySides` | backend/controllers/workoutController.js:154-166 | For non-negative totals the averages are non-negative, and the stronger side is "left" iff the left total is larger. A smaller left total gives an imbalance at or below zero. Unless both totals are 0, the imbalance lies within plus or minus 100. |
| `WorkoutController.ImbalanceSign` | backend/controllers/workoutController.js:158-165 | For non-negative averages, the imbalance is positive iff the left is larger and negative when the right is larger. Equal positive averages give 0. Two zero averages give NaN. |
| `WorkoutController.ImbalanceBounds` | backend/controllers/workoutController.js:158-164 | For non-negative averages with one positive, the imbalance is finite and lies in [-100, 100] before and after rounding. |
| `WorkoutController.EqualTotalsBalanced` | backend/controllers/workoutController.js:156-164 | Equal positive totals give an imbalance of exactly 0. |
| `WorkoutController.AnalysisNonNegative` | backend/controllers/workoutController.js:146-164 | For non-negative workouts, every result summarises non-negative totals of count at least 1. |
| `WorkoutController.AsWrittenDropsInheritedTitles` | backend/controllers/workoutController.js:133-151 | As written, the response is the analysis of the workouts whose titles are not Object.prototype names. Without such titles it equals the intended response. |
| `WorkoutController.ToStringTitleDropped` | backend/controllers/workoutController.js:136 | One workout titled "toString" yields one result when intended and none as written. |
| `WorkoutContext.Reduce` | frontend/src/contexts/WorkoutContext.jsx:7-24 | `SET_WORKOUTS` replaces the list, which may be null. `CREATE_WORKOUT` prepends. `DELETE_WORKOUT` keeps exactly the workouts with another id. `UPDATE_WORKOUT` keeps the length and replaces exactly the matching ids. Other actions leave the state alone. The list actions throw on a null list. |
| `WorkoutContext.WithoutMembers` | frontend/src/contexts/WorkoutContext.jsx:14 | A workout survives the filter iff it was in the list and has another id. |
| `WorkoutContext.WithoutMultiplicity` | frontend/src/contexts/WorkoutContext.jsx:14 | The filter keeps every workout with another id as often as it occurred, and none with the id. |
| `WorkoutContext.WithoutAppend` | frontend/src/contexts/WorkoutContext.jsx:14 | The filter distributes over concatenation, so the survivors keep their order. |
| `WorkoutContext.DeleteIdempotent` | frontend/src/contexts/WorkoutContext.jsx:13-14 | Deleting twice is deleting once. |
| `WorkoutContext.DeleteAbsent` | frontend/src/contexts/WorkoutContext.jsx:13-14 | Deleting an id that is not in the list changes nothing. |
| `WorkoutContext.UpdateAbsent` | frontend/src/contexts/WorkoutContext.jsx:15-20 | Updating an id that is not in the list changes nothing. |
| `WorkoutContext.CreateThenDelete` | frontend/src/contexts/WorkoutContext.jsx:11-14 | Creating a workout with a fresh id and then deleting it restores the list. |
| `RestTimerContext.Reduce` | frontend/src/contexts/RestTimerContext.jsx:5-37 | START sets active with time left and duration both equal to the action's duration. TICK lowers only the time left, by one. STOP resets to the idle state. PAUSE only clears `isActive` and RESUME only sets it. Other actions leave the state alone. |
| `RestTimerContext.Decide` | frontend/src/contexts/RestTimerContext.jsx:49-54 | The effect schedules a tick iff the timer is active with time left, and stops it iff it is active at zero. |
| `RestTimerContext.InRangePreserved` | frontend/src/contexts/RestTimerContext.jsx:5-54 | `0 <= timeLeft <= duration` is kept by every user action with a non-negative duration and by every step of the effect. |
| `RestTimerContext.CountsDown` | frontend/src/contexts/RestTimerContext.jsx:7-54 | After a start with duration d, k <= d steps leave the timer active with d - k seconds left. |
| `RestTimerContext.StartRunsToStop` | frontend/src/contexts/RestTimerContext.jsx:49-54 | After a start with duration d >= 0, the effect ticks exactly d times, then stops, and the timer stays idle from then on. |
| `RestTimerContext.StaysStopped` | frontend/src/contexts/RestTimerContext.jsx:40-54 | The idle timer stays idle. |
| `RestTimerContext.PauseResume` | frontend/src/contexts/RestTimerContext.jsx:24-33 | Pausing an active timer and resuming it restores the state. |
| `RestTimerContext.PausedIsIdle` | frontend/src/contexts/RestTimerContext.jsx:49-54 | A paused timer is neither ticked nor stopped. |
| `AuthContext.Reduce` | frontend/src/contexts/AuthContext.jsx:7-23 | LOGIN sets the user to the payload. LOGOUT sets it to null. UPDATE_PROFILE yields a user whose `profile` is the payload. Other actions leave the state alone. |
| `AuthContext.LogoutIdempotent` | frontend/src/contexts/AuthContext.jsx:11-12 | Logging out twice is logging out once. |
| `AuthContext.UpdateKeepsOtherFields` | frontend/src/contexts/AuthContext.jsx:13-19 | Every other field of the user keeps its value and place. `profile` keeps its place if present and is appended otherwise. |
| `AuthContext.UpdateFromNull` | frontend/src/contexts/AuthContext.jsx:15-18 | Updating the profile of a null user yields a user with `profile` as its only field. |
| `WorkoutForm.CollectEmptyFields` | frontend/src/components/WorkoutForm.jsx:64-74 | The validation pushes the flagged required fields of the record in check order. |
| `WorkoutForm.HandleSubmit` | frontend/src/components/WorkoutForm.jsx:38-137 | Without a user, only the login error results. With a user, the form is rejected iff some required field is empty or 0, with the fields-error message and those fields. The record is sent iff there is a user and no field is flagged. It is then the record built from the form, and the timer starts with the rest time for the rep count. |
| `WorkoutForm.Body` | frontend/src/components/WorkoutForm.jsx:46-61 | The record is unilateral iff the box is ticked. The title is trimmed and the notes are kept. The set count is never 0 and keeps any other parsed count. Each number of the record's kind is the parsed value, or 0 when it did not parse. |
| `WorkoutForm.RepCount` | frontend/src/components/WorkoutForm.jsx:129-131 | For a unilateral form the rep count is defined iff both sides parsed, and it is then the larger side. Otherwise it is the parsed reps. |
| `WorkoutForm.EmptyFieldsSpec` | frontend/src/components/WorkoutForm.jsx:46-74 | The flagged fields are exactly the required fields that are empty or 0, in the fixed order. There are none iff the record is complete. |
| `WorkoutForm.FlaggedSpec` | frontend/src/components/WorkoutForm.jsx:64-74 | Flagging keeps check order and flags exactly the falsy fields. |
| `WorkoutForm.SentRecordComplete` | frontend/src/components/WorkoutForm.jsx:46-131 | A sent record has a non-empty trimmed title and non-zero sets. A bilateral record has non-zero load and reps and a rep count equal to its reps. A unilateral record has four non-zero side fields and a rep count equal to the larger side's reps. |
| `WorkoutForm.SetsOrOne` | frontend/src/components/WorkoutForm.jsx:48 | `parseInt(sets)` or 1 is never 0 and keeps any non-zero parsed value. |
| `WorkoutForm.RestTimeFor` | frontend/src/components/WorkoutForm.jsx:133-135 | The rest time is always 60, 90 or 180, and 60 when the rep count is NaN. |
| `WorkoutForm.RestTimeNonIncreasing` | frontend/src/components/WorkoutForm.jsx:133-135 | More reps never give a longer rest. |
| `RestTimer.Render` | frontend/src/components/RestTimer.jsx:9-100 | Nothing is rendered iff the timer is inactive. Otherwise the widget shows the clock, both colours, the progress, "almost ready" iff 0 < t <= 10, and "time's up" iff t = 0. |
| `RestTimer.MinutesAndSeconds` | frontend/src/components/RestTimer.jsx:12-13 | For t >= 0, minutes * 60 + seconds = t and 0 <= seconds < 60. |
| `RestTimer.Clock` | frontend/src/components/RestTimer.jsx:12-69 | For t >= 0, the clock is canonical minutes, a colon and exactly two digits of seconds below 60, and it reads back as t. |
| `RestTimer.BandOf` | frontend/src/components/RestTimer.jsx:15-25 | The bands are green above 60, yellow in (30, 60] and red at or below 30. |
| `RestTimer.TimerColor` | frontend/src/components/RestTimer.jsx:15-19 | The text colour is `text-` followed by the time's band and `-400`. |
| `RestTimer.ProgressColor` | frontend/src/components/RestTimer.jsx:21-25 | The bar colour is `bg-` followed by the time's band and `-400`. |
| `RestTimer.ColorsAgree` | frontend/src/components/RestTimer.jsx:15-25 | As the time runs out, the band never turns greener. |
| `RestTimer.Progress` | frontend/src/components/RestTimer.jsx:11 | In range with a positive duration, progress is finite and in [0, 100]. Over a zero duration it is NaN iff no time is left, and infinite otherwise. |
| `RestTimer.ProgressBounds` | frontend/src/components/RestTimer.jsx:11 | In range with a positive duration, progress is 0 iff nothing has elapsed and 100 iff no time is left, and each tick adds 100/duration. |
| `RestTimer.ZeroDurationProgress` | frontend/src/components/RestTimer.jsx:11 | A zero-second timer renders a NaN progress. |
| `RestTimer.MessagesExclusive` | frontend/src/components/RestTimer.jsx:87-100 | "Almost ready" and "time's up" never show together, and "almost ready" only in the red band. |
| `RestTimer.CountdownMessages` | frontend/src/components/RestTimer.jsx:9-100 | Over a rest of d > 0 seconds, "almost ready" shows in the last ten ticks and "time's up" in the round before the stop. Nothing shows after the stop. |
| `Analysis.CardOf` | frontend/src/pages/Analysis.jsx:7-111 | The card keeps the element's title and averages. The percentage is the size of the imbalance, 0 for null. There is a recommendation iff the percentage exceeds 5, and it names the stronger side and that percentage. |
| `Analysis.CardMatchesBand` | frontend/src/pages/Analysis.jsx:8-102 | The card is green with no recommendation iff abs(imbalance) <= 5. It is yellow with "Good Progress" iff 5 < abs(imbalance) <= 10. It is red with "Attention Needed", the alert icon, the red box and the advice iff abs(imbalance) > 10. |
| `Analysis.MirrorSymmetric` | frontend/src/pages/Analysis.jsx:8-67 | An imbalance and its negation get the same colour, box and percentage, and mirrored markers. |
| `Analysis.NullIsBalanced` | frontend/src/pages/Analysis.jsx:54-67 | A null imbalance counts as balanced, shows 0 % and puts the marker in the middle. |
| `Analysis.MarkerOnBar` | frontend/src/pages/Analysis.jsx:67 | For abs(imbalance) <= 100 the marker lies in [0, 100], left of centre iff the imbalance is negative. |
| `Analysis.CountsPartition` | frontend/src/pages/Analysis.jsx:216-228 | Balanced, needs-attention and severe counts add up to the number analysed, so the two shown counts are disjoint and bounded by it. |
| `Analysis.CountAppend` | frontend/src/pages/Analysis.jsx:222-228 | `filter(p).length` grows by one exactly for an added element that satisfies p. |
| `Analysis.PageOf` | frontend/src/pages/Analysis.jsx:179-232 | The empty notice shows iff the analysis is empty. The summary shows iff it is not. There is one card per element, in order. |
| `Analysis.AnalysisCards` | frontend/src/pages/Analysis.jsx:67-99 | On the page for non-negative workouts every marker lies on the bar. A recommendation names the side whose total work is strictly larger. |
| `WorkoutDetails.SwapKeepsVolume` | frontend/src/components/WorkoutDetails.jsx:35 | Swapping left and right leaves the volume unchanged. |
| `WorkoutDetails.Volume` | frontend/src/components/WorkoutDetails.jsx:33-38 | Non-negative fields give a non-negative volume, and no sets give 0. |
| `WorkoutDetails.VolumeIgnoresOtherFields` | frontend/src/components/WorkoutDetails.jsx:33-38 | Unilateral volume depends only on the side fields and sets. Bilateral volume depends only on load, reps and sets. |
| `WorkoutDetails.VolumePerSet` | frontend/src/components/WorkoutDetails.jsx:33-38 | One more set adds one set's volume. |
| `Home.TotalWorkouts` | frontend/src/pages/Home.jsx:62 | The count is the list length, or 0 for a null list. |
| `Home.TotalVolume` | frontend/src/pages/Home.jsx:63-68 | A list not yet loaded totals 0. A loaded list totals the sum of its workouts' volumes. |
| `Home.TotalVolumeIsSum` | frontend/src/pages/Home.jsx:63-68 | An empty list totals 0. Appending a workout adds its volume. |
| `Home.FoldIsSum` | frontend/src/pages/Home.jsx:63-67 | The `reduce` from any start adds the sum of the volumes to it. |
| `Home.SumNonNegative` | frontend/src/pages/Home.jsx:63-68 | Non-negative workouts give a non-negative total volume. |
| `Home.HeaderOf` | frontend/src/pages/Home.jsx:99-117 | The stats panel shows iff there is at least one workout, and the welcome line shows iff it does not. |
| `JsNumber.Round2` | backend/controllers/workoutController.js:162-164 | `Math.round(x * 100) / 100` lies within half a hundredth of x (above it at a tie) and is a whole number of hundredths. |
| `JsNumber.Round2Within` | frontend/src/utils/plateCalculator.js:13 | Rounding never leaves an interval whose ends are whole hundredths. |
| `JsNumber.Divide` | backend/controllers/workoutController.js:158 | Division by a non-zero number is exact. 0/0 is NaN. Any other x/0 is an infinity with the sign of x. |
| `JsString.TrimIsInnerSlice` | frontend/src/components/WorkoutForm.jsx:47 | `trim` returns the slice left after removing the white space at both ends. It neither starts nor ends with white space. |
| `JsString.TrimEmpty` | frontend/src/components/WorkoutForm.jsx:47-65 | A title trims to empty iff it is all white space. |
| `JsString.TrimIdempotent` | frontend/src/components/WorkoutForm.jsx:47 | Trimming twice is trimming once. |

## Left out

- The database, HTTP and React. This covers `Workout.find` and `Workout.create`, every `fetch`, the 201/400 replies beyond the rejection decision, the route files, authentication middleware, JWT and bcrypt. `createWorkout` yields the record it would store. `getImbalanceAnalysis` takes the workouts the query returns.
- The read, update and delete handlers of the controller, the user controller and the pages' loading effects. They only pass data between the database and the client.
- Mongoose schema validation and casting. A stored value is the request's value as given.
- The timer's `setInterval`/`clearInterval` and the browser `Notification`. Only the effect's decision to tick, stop or do nothing is modelled (`RestTimerContext.Decide`), with one step per effect run.
- `localStorage`, which restores the user at start-up (frontend/src/contexts/AuthContext.jsx:31-36).
- `parseInt` and `parseFloat`. The form's numeric fields are given as their parse results, and a NaN parse is `None`.
- IEEE-754 rounding. Numbers are exact reals, and only NaN and the infinities of a division by zero are modelled. `String(n)` is modelled for whole hundredths below 10^21, which covers every plate weight.
- Rendering, animation and styling beyond the class names and texts the components compute. The greeting's user name and the hard-coded "This Week" card are not modelled.
- `PlateCalculator.CalculatePlates`: requires every denomination to exceed half a hundredth whenever there is load above the bar. A positive denomination below that rounds back to the same remainder, so the source loops forever. The model does not describe that non-termination.
- `PlateDisplay.FormatPlateDisplay`: requires each plate to be a whole number of hundredths below 10^21, the range in which its printed key is modelled.
- `WorkoutController.GetImbalanceAnalysis`: models the workouts as the unilateral records the query returns, with numeric side fields. A record missing a side field makes the source's sums NaN, and the model does not cover that case.
- `WorkoutController.Accumulate`: a workout whose title is an inherited name leaves `analysis` as it was. The values the source's `+=` then writes onto the inherited member (for `__proto__`, onto the prototype every object shares) are not modelled.
- `WorkoutContext.Reduce`: the list actions on a null list are modelled as a `TypeError` outcome rather than an exception.
- `RestTimerContext.InRangePreserved`: covers only user actions that start with a non-negative duration, which the form always uses. A negative duration is accepted by the source and shows a negative clock.
- `RestTimer.Clock`: states how the clock reads only for a non-negative time left. The source would show a negative time as, for example, "-1:-5".

## Findings

| source | as written | input that shows it | evidently intended | confidence | as-written member | corrected member |
|---|---|---|---|---|---|---|
| backend/controllers/workoutController.js:133-151 | `!analysis[title]` also sees the names every plain object inherits, so the entry is never created and the sums go onto the inherited value | one unilateral workout titled "toString" (or "constructor", "valueOf", ...) | one result per distinct title, whatever the title | not executed | `WorkoutController.ToStringTitleDropped` | `WorkoutController.AnalysisPerExercise` |
| frontend/src/utils/plateCalculator.js:25-32 | a plain object lists whole-number keys in ascending order, so the solver's largest-first plates are displayed smallest first | `formatPlateDisplay([25, 15])` reads "1x15kg + 1x25kg" | entries largest first, as the solver returns them: "1x25kg + 1x15kg" | not executed | `PlateDisplay.DisplayTwentyFiveFifteen` | `PlateDisplay.LargestFirstTwentyFiveFifteen` |
