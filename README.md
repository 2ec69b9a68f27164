# SecureGate decision logic in Dafny

This project models the parts of the SecureGate demo application that make
decisions rather than draw markup:

- **Password strength** (`password_strength.dfy`, module `PasswordStrength`).
  The login/signup card scores a password from 0 to 5 and shows a label. It
  lists improvement suggestions under a weak password and colours the strength
  bar.
- **Form validation and card state** (`auth_form.dfy`, module `AuthForm`).
  `validateForm` checks the e-mail, username, password and confirmation fields.
  The class `AuthCard` holds the card's hooks: the login/signup toggle with its
  reset effect, `handleChange`, the visibility toggle, the validation setter
  and the strength effect.
- **Training store** (`training_slice.dfy`, module `TrainingSlice`). This is the
  `training` slice: the initial workout table and a difficulty level between 1
  and 10. `incrementDifficulty` raises the level by 0.2 up to a cap of 10, and
  `completeWorkout` appends an id.
- **Training schedule page** (`training_schedule.dfy`, module `TrainingSchedule`).
  This covers the tier label and colour of a difficulty, the effective
  difficulty `min(10, base + level)`, the workouts of the selected day, and the
  page's own completion list, which takes each id at most once.

Decisions the model makes:

- The difficulty level is a `real`, so `+ 0.2` is exact.
- Every regular expression is an ASCII character-class predicate over
  `seq<char>`.
- The e-mail test `\S+@\S+\.\S+` is not anchored. The model therefore asks only
  that some stretch of the string matches it.
- `trim() === ''` and `\S` share one white-space predicate, `IsSpace`. It
  covers the ECMAScript white-space and line-terminator characters.

Notes on the code as written:

- **The penalty is applied twice.** The code subtracts the weak-pattern
  penalty at src/components/MainFeature.jsx:77 and again at :81, before the
  clamp at :84. `Score` takes the number of penalties as a parameter.
  `PenaltyAsWritten = 2` is what `CalculateStrength` and the card use, and
  `Score(s, 1)` models a single penalty. `WeakPatternScoreBound` states the
  bound for one penalty and for two.
- **"abc12345678" has 11 characters.** It gets one length point, not two. It
  therefore scores 1 with one penalty and 0 as written (`ScoreExamples`).
- **The table has 8 workouts.** The shipped table
  (src/redux/trainingSlice.js:6-86) holds 8 records, two of them on Monday.
- **The strength code is broken as shown.** The code declares
  `normalizedStrength` twice (MainFeature.jsx:79 and :84). The head of its
  `messages` array is missing (:86-90). The model uses the clamp at :84.
  `Labels` takes its order from the colour comments at :203-210: Very weak,
  Weak, Fair, Good, Strong, Very strong.

## Model

| member | source | states |
|---|---|---|
| PasswordStrength.CalculateStrength | src/components/MainFeature.jsx:59-92 | An empty password gives strength 0 and an empty message. Otherwise the strength is the as-written score, lies in 0..5, and the message is the label at that index. |
| PasswordStrength.Score | src/components/MainFeature.jsx:66-84 | The clamped score always lies in [0,5] and is a valid index into the label table. |
| PasswordStrength.LengthPoints | src/components/MainFeature.jsx:71-72 | Length contributes 0 below 8 characters, 1 for 8 to 11, and 2 from 12 on. |
| PasswordStrength.Clamp | src/components/MainFeature.jsx:84 | The clamp keeps values already in [0,5] and sends lower values to 0 and higher values to 5. |
| PasswordStrength.EmptyPasswordScoresZero | src/components/MainFeature.jsx:60-63 | The empty password scores 0. |
| PasswordStrength.VeryStrongUnreachable | src/components/MainFeature.jsx:71-84 | The additive checks give at most 4, so strength 5 ("Very strong") is never reached. |
| PasswordStrength.WeakPatternHasDigitNoSymbol | src/components/MainFeature.jsx:73-77 | A password matching either weak pattern contains a digit and no symbol. |
| PasswordStrength.SymbolDefeatsWeakPattern | src/components/MainFeature.jsx:74-77 | A password with a symbol matches neither weak pattern. |
| PasswordStrength.WeakPatternScoreBound | src/components/MainFeature.jsx:73-84 | A weak-pattern password scores at most 1 as written (two penalties) and at most 2 with one penalty. Its exact score is the clamped length points, minus 1 as written. |
| PasswordStrength.ScoreExamples | src/components/MainFeature.jsx:66-91 | "abcdefgh" is Weak (1). "Ab3!Ab3!Ab3!" is Strong (4). "abc12345678" scores 1 with one penalty and 0 as written. |
| PasswordStrength.Suggestions | src/components/MainFeature.jsx:448-452 | Each of the five suggestions appears exactly when its check fails, nothing else appears, and they appear in the fixed display order. |
| PasswordStrength.ShownSuggestionsNonEmpty | src/components/MainFeature.jsx:439-452 | Whenever the suggestion box is shown (strength below 3, non-empty password), it lists at least one suggestion. |
| PasswordStrength.ScoreColor | src/components/MainFeature.jsx:202-212 | Every reachable score has a table colour among the first five. The bar is never grey. |
| AuthForm.SuggestionBoxNeverEmpty | src/components/MainFeature.jsx:417-452 | When the signup card shows the suggestion box (non-empty password, computed strength below 3), the box lists at least one suggestion. |
| AuthForm.FormData.Set | src/components/MainFeature.jsx:154-157 | Setting a field gives it the new value and leaves every other field unchanged. |
| AuthForm.EmailLikeNotBlank | src/components/MainFeature.jsx:110-116 | A string the e-mail pattern accepts is never blank, so "required" and "invalid" cannot both apply. |
| AuthForm.FieldError | src/components/MainFeature.jsx:118-147 | In login mode the username and confirmation get no error. |
| AuthForm.Validate | src/components/MainFeature.jsx:105-152 | The error map holds exactly the fields with an error, each with its one message. The form is valid iff the map is empty, iff no field has an error. |
| AuthForm.NoFieldErrorsIff | src/components/MainFeature.jsx:105-152 | The form passes iff the e-mail matches and the password has at least 8 characters. In signup mode it also needs a non-blank username of at least 3 characters and a confirmation equal to the password. |
| AuthForm.LoginIgnoresSignupFields | src/components/MainFeature.jsx:118-147 | In login mode the username and confirmation never get an error, and changing them changes no field's error. |
| AuthForm.RequiredTakesPrecedence | src/components/MainFeature.jsx:110-147 | A field that the mode checks gets its "required" message before any other check when it is empty. For the e-mail and username, which are trimmed, a field of only white space also counts as empty. |
| AuthForm.AuthCard.constructor | src/components/MainFeature.jsx:23-38 | Initial hooks: login mode, empty form, no errors, strength 0, empty message. |
| AuthForm.AuthCard.ModeChanged | src/components/MainFeature.jsx:40-51 | The mode effect empties the form and the errors and clears the visibility and submitting flags. |
| AuthForm.AuthCard.SetAuthMode | src/components/MainFeature.jsx:242-252 | The tabs set the mode. The reset runs only if the mode changed, and otherwise the form is untouched. |
| AuthForm.AuthCard.SwitchAuthMode | src/components/MainFeature.jsx:163-165 | The toggle flips the mode and always resets the form. |
| AuthForm.AuthCard.ResetForm | src/components/MainFeature.jsx:94-103 | Empties the form and errors and hides the password. It keeps the mode and the submitting flag. |
| AuthForm.AuthCard.HandleChange | src/components/MainFeature.jsx:154-157 | Only the named field changes, and it takes the new value. |
| AuthForm.AuthCard.TogglePasswordVisibility | src/components/MainFeature.jsx:159-161 | Flips the visibility flag. |
| AuthForm.AuthCard.ValidateForm | src/components/MainFeature.jsx:105-152 | Stores the current form's errors in the current mode and sets formValid to the result. The result is true iff there are no errors. |
| AuthForm.AuthCard.UpdatePasswordStrength | src/components/MainFeature.jsx:58-92 | The meter shows the as-written score of the current password and its label, or nothing for an empty password. The strength stays in 0..5. |
| TrainingSchedule.TierSelectsLabelAndColor | src/pages/TrainingSchedule.jsx:59-73 | Label and colour are both selected by the same tier, the number of thresholds 2, 4, 6, 8 the level exceeds. The bands are closed at their upper end. |
| TrainingSchedule.LabelMonotone | src/pages/TrainingSchedule.jsx:59-65 | A higher level never yields an earlier tier. |
| TrainingSchedule.ColorMatchesLabel | src/pages/TrainingSchedule.jsx:59-73 | Two levels share a colour iff they share a label. |
| TrainingSchedule.LabelBoundaries | src/pages/TrainingSchedule.jsx:59-65 | 2 is Beginner, 2.01 is Intermediate, 8 is Expert, 10 is Master. |
| TrainingSchedule.WorkoutDifficulty | src/pages/TrainingSchedule.jsx:194 | The effective difficulty is at most 10. It equals base + level when that sum is at most 10, and 10 otherwise. |
| TrainingSchedule.WorkoutDifficultyBounds | src/pages/TrainingSchedule.jsx:194 | For a well-formed table and a level in [1,10], the effective difficulty lies in [2,10]. Base 4 at level 8 gives 10. |
| TrainingSchedule.WorkoutsForDay | src/pages/TrainingSchedule.jsx:190-191 | Returns exactly the workouts whose dayIndex is the selected day, as a subsequence of the table in its original order. Each such record appears as often as in the table, and no other record appears. |
| TrainingSchedule.DayCards | src/pages/TrainingSchedule.jsx:190-245 | Card i shows workout i of the day. Its difficulty is that workout's effective difficulty min(10, base + level), and its bar colour is the colour of that difficulty. A card is marked completed, with its button disabled, iff its id is in the completed list. |
| TrainingSchedule.MarkComplete | src/pages/TrainingSchedule.jsx:49-57 | A known id changes nothing. A new id is appended at the end. The list stays free of duplicates. |
| TrainingSchedule.SchedulePage.constructor | src/pages/TrainingSchedule.jsx:25-26 | The page opens on the given day with an empty completion list. |
| TrainingSchedule.SchedulePage.SelectDay | src/pages/TrainingSchedule.jsx:165 | A day button sets the selected day. |
| TrainingSchedule.SchedulePage.Tick | src/pages/TrainingSchedule.jsx:42-44 | One timer firing increments the store's level. The completion list is unchanged. |
| TrainingSchedule.SchedulePage.HandleWorkoutComplete | src/pages/TrainingSchedule.jsx:49-57 | A repeated id is ignored. A new id is appended to the page's list and to the store's list. The page's list stays duplicate-free and remains the tail of the store's list. |
| TrainingSchedule.SchedulePage.Cards | src/pages/TrainingSchedule.jsx:190-241 | Card i shows workout i of the selected day, with the effective difficulty at the store's current level. It is completed iff its id is in the page's list. |
| TrainingSlice.InitialTableWellFormed | src/redux/trainingSlice.js:6-86 | The table has 8 workouts and unique ids. Every dayIndex is in 0..6, every day is covered, and every baseDifficulty is in 1..4. |
| TrainingSlice.Increment | src/redux/trainingSlice.js:94 | The new level never exceeds 10, never decreases from a level of at most 10, and is level + 0.2 below the cap. |
| TrainingSlice.IncrementFixpointAndMonotone | src/redux/trainingSlice.js:94 | 10 is a fixed point, and the increment is monotone in the level. |
| TrainingSlice.LevelAfterClosedForm | src/redux/trainingSlice.js:93-95 | Starting from the initial level 1, n increments give min(10, 1 + 0.2·n). |
| TrainingSlice.LevelAfterProperties | src/redux/trainingSlice.js:93-95 | The level stays in [1,10], never decreases, is below 10 before 45 increments and is exactly 10 from then on. 50 increments give 10. |
| TrainingSlice.TrainingStore.constructor | src/redux/trainingSlice.js:3-87 | Initial state: level 1, no completed workouts, the shipped table. |
| TrainingSlice.TrainingStore.IncrementDifficulty | src/redux/trainingSlice.js:93-95 | Only the level changes, to min(10, level + 0.2). The [1,10] invariant is kept. |
| TrainingSlice.TrainingStore.CompleteWorkout | src/redux/trainingSlice.js:96-98 | The id is appended without deduplication. The level and the table are unchanged. |

## Left out

- Rendering is left out because it is presentation only. This covers all JSX
  markup, framer-motion animation, icons, tooltips, toasts and the injected
  `<style>` element. It also covers the label text colours at
  MainFeature.jsx:429-434.
- `handleSubmit` (MainFeature.jsx:167-200) is left out. It is asynchronous
  plumbing: a 1500 ms timeout, a dispatch into an authentication slice and
  router navigation. The authentication slice is not part of this model.
- React schedules the effects: validation after every `formData` change, and
  the strength effect after every password change. The model gives each effect
  body as its own method (`ValidateForm`, `UpdatePasswordStrength`,
  `ModeChanged`). It does not model when React runs them or how it batches
  state updates.
- The `setInterval`/`clearInterval` driver is left out because it is a clock.
  Only one firing is modelled (`SchedulePage.Tick`).
- `new Date().getDay()` and the date-fns week are left out. They are clock
  calls, so the initial selected day is a constructor input.
- Floating-point drift from repeated `+ 0.2` is left out, because the level is
  a `real`.
- The `(passwordStrength / 5) * 100` and `(workoutDifficulty / 10) * 100`
  widths are left out. They are display-only float values.
- Lengths are counted in Unicode characters, not UTF-16 code units. A password
  with characters outside the Basic Multilingual Plane is shorter here than in
  JavaScript.
- The commented-out strength meter (MainFeature.jsx:461-475) is not modelled
  because it is not live code.
- The theme, routing and store wiring are not part of this model:
  src/App.jsx, src/components/ProtectedRoute.jsx, src/pages/Home.jsx,
  src/pages/NotFound.jsx and src/redux/store.js.
