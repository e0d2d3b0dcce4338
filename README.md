# Onboarding wizard controller

A Dafny model of the onboarding funnel of the no-smoking web app
(`OnboardingPage`). It is a seven-step wizard:

1. product
2. daily usage
3. cost per unit
4. duration
5. identity, gated by an email-uniqueness check
6. an offer, with a flash-sale sub-state, a five-minute countdown and a "seats left" counter
7. password and account creation

The wizard's answers are saved to a browser slot after every change and read back when the page loads. A habit calculator turns the answers into yearly and lifetime figures.

Modules:

- `Wrappers`: `Option`.
- `Text`: the string primitives the page relies on. These are `toString` on whole numbers, `parseFloat` on integer strings, `trim` and `padStart`. It also proves that parsing a rendered number gives the number back.
- `Draft`: the answers (`FormData`), the stored object (`StoredDraft`), the slot (`Slot`: missing, malformed or stored) and the read-back with its per-field defaults (`Rehydrate`). The saved form is `Persist`. A saved draft reads back unchanged.
- `Habits`: `getHabitStats`. It covers the duration table with its legacy and numeric fallbacks, the label table with its cigarette default, and the statistics.
- `Offer`: `formatTime` and its inverse, and the two counter ticks with their guards. Iterated ticks are proved to stop at 0 and at 1.
- `Steps`: `nextStep`/`prevStep` clamping, iterated moves, when the Back control shows, and `getStepTitle`.
- `Gateways`: the verdict of the email check, the ordered finalize checks and the signup error message.
- `Onboarding.Controller`: the page's React state as fields of one object, with one method per handler, effect or timer callback.
  - `Valid()` is the invariant: the step and counters are in range, the slot holds the current answers, and step 1 shows no chosen product.
  - Further conjuncts of `Valid()`: the flash sale and the counters only move once step 6 is reached. Step 6 is never left backwards. An email check is only in flight before step 6.
  - Each method states the whole new state through `Snapshot()`.

Behaviour of the code the model keeps:

- `CompleteEmailCheck` applies the answer to whatever step the wizard is on when it arrives. Nothing checks that the wizard is still on step 5. The email field also stays editable during the check, so the email that reaches step 6 need not be the one that was checked.
- The countdown's guard is `step === 6 || showFlashSale`, and the flash-sale flag is never reset. So after the flash sale the countdown keeps ticking on step 7 (`TickCountdown`).
- The finalize button is disabled while the password is shorter than 8 characters, differs from its confirmation, or the confirmation is empty. So the mismatch and length branches of the submit handler cannot be reached by clicking. `Submit` still models them as the handler is written.
- The messaging opt-in checkbox is only shown while a phone number is entered. `SetOptInMessages` does not model that rendering condition.
- Nothing guards against pressing the finalize button twice while a signup request is in flight. `Submit` promises nothing about that.
- The duration buckets are named `less_than_5`, `5_to_10`, `10_to_20` and `over_20`, plus the legacy `less_than_10` and numeric strings. Step 5's Continue needs non-blank first name, last name and email, judged after trimming. The phone number is optional.

## Model

| member | source | states |
|---|---|---|
| Text.NatToString | apps/frontend/src/pages/OnboardingPage.tsx:592 | the decimal rendering is non-empty and all digits, starts with '0' only for zero, and has one digit exactly below 10 |
| Text.ParseNatToString | apps/frontend/src/pages/OnboardingPage.tsx:289-290 | parsing the rendering of a whole number, with 0 for a failed parse, gives the number back |
| Text.ParseSkipsLeadingSpace | apps/frontend/src/pages/OnboardingPage.tsx:289-290 | `ParseNumber` skips white space before a number |
| Text.ParseNegative | apps/frontend/src/pages/OnboardingPage.tsx:289-290 | `ParseNumber` reads a minus sign before the digits as a negative number, and `ParseOrZero` keeps it |
| Text.ParseNotNumber | apps/frontend/src/pages/OnboardingPage.tsx:289-290 | text that starts with no white space, sign, digit, decimal point or `I` (of `Infinity`) does not parse, and `ParseOrZero` gives 0 for it |
| Text.Trim | apps/frontend/src/pages/OnboardingPage.tsx:805 | the trimmed string is a slice of the input with only a blank prefix and a blank suffix cut off, has no white space at either end, and is empty exactly when the input is all white space |
| Text.PadStart | apps/frontend/src/pages/OnboardingPage.tsx:284 | the result is the input preceded by fill characters up to the width, or the input itself when already that long |
| Draft.OrEmpty | apps/frontend/src/pages/OnboardingPage.tsx:58 | a stored string reads back as stored, and a missing key reads back as the empty string, like a stored empty string |
| Draft.OrFalse | apps/frontend/src/pages/OnboardingPage.tsx:66 | a stored flag reads back as stored, and a missing key reads back as false |
| Draft.Rehydrate | apps/frontend/src/pages/OnboardingPage.tsx:51-104 | loading never fails; a missing slot or text that does not parse gives the all-empty draft |
| Draft.RehydrateKeepsPresentFields | apps/frontend/src/pages/OnboardingPage.tsx:56-70 | every present stored field is restored as stored and every missing one takes its default (`''`, `false`, no product) |
| Draft.Persist | apps/frontend/src/pages/OnboardingPage.tsx:107-109 | the saved object carries every answer (product, email and password shown) |
| Draft.RehydratePersist | apps/frontend/src/pages/OnboardingPage.tsx:51-70 | reading back what the auto-save wrote restores exactly the saved answers |
| Habits.DurationYears | apps/frontend/src/pages/OnboardingPage.tsx:302-317 | a known bucket gives one of 5, 10, 20 or 35 years; any other answer gives its numeric parse, or 0 when it does not parse |
| Habits.DurationTable | apps/frontend/src/pages/OnboardingPage.tsx:303-313 | less_than_5 gives 5, 5_to_10 gives 10, 10_to_20 gives 20, over_20 gives 35 and legacy less_than_10 gives 10 |
| Habits.BucketYearsAt | apps/frontend/src/pages/OnboardingPage.tsx:722-727 | each of the four buckets step 4 offers has its table value |
| Habits.LabelTable | apps/frontend/src/pages/OnboardingPage.tsx:322-331 | `LabelFor`: with no product the labels are the cigarette labels; each product has its fixed unit word |
| Habits.StatsConsistent | apps/frontend/src/pages/OnboardingPage.tsx:287-339 | `HabitStats`: yearly spending is yearly usage times the unit cost, the total is yearly spending times the years, and the label is the product's |
| Habits.ButtonAnswersStats | apps/frontend/src/pages/OnboardingPage.tsx:288-320 | for answers given through the buttons (1-5 a day, $6-9, a bucket) the figures are exactly daily×365, daily×cost×365 and that times the bucket's years, with yearly spending between $2,190 and $16,425 |
| Habits.TwoPacksAtEightForFiveToTenYears | apps/frontend/src/pages/OnboardingPage.tsx:293-320 | two a day at $8 for 5_to_10 gives 5840 spent and 730 used a year and 58400 in all |
| Habits.UnparseableUsageIsZero | apps/frontend/src/pages/OnboardingPage.tsx:289 | a daily usage that does not parse gives the same statistics as "0", with zero usage and zero total |
| Habits.UnparseableCostIsZero | apps/frontend/src/pages/OnboardingPage.tsx:290 | a unit cost that does not parse gives the same statistics as "0", with zero spending |
| Habits.StatsNonNegative | apps/frontend/src/pages/OnboardingPage.tsx:293-320 | no figure is negative when the parsed answers and the years are not |
| Habits.TotalGrowsWithDuration | apps/frontend/src/pages/OnboardingPage.tsx:302-320 | a later duration bucket never gives a smaller lifetime total |
| Offer.FormatTimeShape | apps/frontend/src/pages/OnboardingPage.tsx:281-285 | `FormatTime` shows digits, a colon and exactly two digits holding the seconds below a minute |
| Offer.FormatTimeRoundTrip | apps/frontend/src/pages/OnboardingPage.tsx:281-285 | reading the `m:ss` display back gives the number of seconds it was made from |
| Offer.InitialTimeDisplay | apps/frontend/src/pages/OnboardingPage.tsx:40 | the countdown starts by showing 5:00 |
| Offer.CountdownTick | apps/frontend/src/pages/OnboardingPage.tsx:122-130 | one countdown tick lowers the time by at most one second and never below 0 |
| Offer.SeatsTick | apps/frontend/src/pages/OnboardingPage.tsx:133-142 | one seats tick lowers the counter by at most one and never below 1 |
| Offer.CountdownFloorsAtZero | apps/frontend/src/pages/OnboardingPage.tsx:122-130 | on step 6 or during the flash sale, k ticks leave max(t - k, 0) seconds |
| Offer.CountdownIdleOffOffer | apps/frontend/src/pages/OnboardingPage.tsx:123 | off step 6 and without the flash sale, ticks change nothing |
| Offer.CountdownReachesZero | apps/frontend/src/pages/OnboardingPage.tsx:40 | from 300 seconds, 300 or more ticks leave exactly 0 |
| Offer.SeatsFloorAtOne | apps/frontend/src/pages/OnboardingPage.tsx:133-142 | during the flash sale, k ticks leave max(s - k, 1) seats |
| Offer.SeatsIdleWithoutFlashSale | apps/frontend/src/pages/OnboardingPage.tsx:134 | without the flash sale, ticks change nothing |
| Offer.SeatsReachOne | apps/frontend/src/pages/OnboardingPage.tsx:41 | from six seats, five ticks leave exactly one, and further ticks keep it at one |
| Steps.StepMovesStayInRange | apps/frontend/src/pages/OnboardingPage.tsx:275-276 | `Next` and `Prev` keep the step in 1..7, move by one away from the ends, and stay put at 7 and at 1 |
| Steps.NextNClamps | apps/frontend/src/pages/OnboardingPage.tsx:275 | k forward moves land on min(step + k, 7) |
| Steps.PrevNClamps | apps/frontend/src/pages/OnboardingPage.tsx:276 | k back moves land on max(step - k, 1) |
| Steps.BackVisibleOnQuestionSteps | apps/frontend/src/pages/OnboardingPage.tsx:1229 | the Back control is shown exactly on steps 2 to 5 |
| Steps.StepTitle | apps/frontend/src/pages/OnboardingPage.tsx:348-394 | a step has a non-empty title exactly when it is one of steps 1 to 7 |
| Steps.TitleDependsOnOfferedProduct | apps/frontend/src/pages/OnboardingPage.tsx:352-384 | only steps 2-4 depend on the product; the four offered products get four distinct titles, any other product gets the generic one |
| Gateways.EmailVerdict | apps/frontend/src/pages/OnboardingPage.tsx:161-198 | no error exactly when the registry says not registered; a registered email and a failed check each give their own non-empty error |
| Gateways.SubmissionError | apps/frontend/src/pages/OnboardingPage.tsx:200-227 | no error exactly when product, name, email and password are present, the passwords match and are at least 8 long; missing fields are reported first, then a mismatch, then the length |
| Gateways.SignupErrorMessage | apps/frontend/src/pages/OnboardingPage.tsx:244-246 | a rejection shows the server's error, or "Signup failed" when it has none; a failed request shows its own message |
| Onboarding.FullNameJoinsNames | apps/frontend/src/pages/OnboardingPage.tsx:805 | `FullName`: a first and a last name without white space at their outer ends become the two names joined by one space |
| Onboarding.IdentityCompleteIffNotBlank | apps/frontend/src/pages/OnboardingPage.tsx:921 | `IdentityComplete`: Continue is enabled exactly when none of first name, last name and email is all white space |
| Onboarding.Controller.constructor | apps/frontend/src/pages/OnboardingPage.tsx:38-119 | on load the state is step 1, 300 seconds, 6 seats, no error, with the answers read back from the slot and no product chosen |
| Onboarding.Controller.UpdateForm | apps/frontend/src/pages/OnboardingPage.tsx:106-109 | a change of the answers is written through to the slot; nothing else changes |
| Onboarding.Controller.SelectProductType | apps/frontend/src/pages/OnboardingPage.tsx:342-345 | choosing a product on step 1 records it and moves to step 2 |
| Onboarding.Controller.SelectDailyUsage | apps/frontend/src/pages/OnboardingPage.tsx:591-594 | choosing n on step 2 stores n as text that parses back to n, and moves to step 3 |
| Onboarding.Controller.SelectUnitCost | apps/frontend/src/pages/OnboardingPage.tsx:660-663 | choosing a cost on step 3 stores it as text that parses back to it, and moves to step 4 |
| Onboarding.Controller.SelectDuration | apps/frontend/src/pages/OnboardingPage.tsx:734-737 | choosing a bucket on step 4 stores it, gives its table years, and moves to step 5 |
| Onboarding.Controller.Back | apps/frontend/src/pages/OnboardingPage.tsx:1229-1233 | Back moves one step down from steps 2-5 and clears the product on arriving at step 1 |
| Onboarding.Controller.SetFirstName | apps/frontend/src/pages/OnboardingPage.tsx:805 | the first name is stored and the display name rebuilt from both names |
| Onboarding.Controller.SetLastName | apps/frontend/src/pages/OnboardingPage.tsx:819 | the last name is stored and the display name rebuilt from both names |
| Onboarding.Controller.SetEmail | apps/frontend/src/pages/OnboardingPage.tsx:836-839 | the email is stored and the inline email error cleared |
| Onboarding.Controller.SetPhone | apps/frontend/src/pages/OnboardingPage.tsx:855 | the phone number is stored |
| Onboarding.Controller.SetOptInMessages | apps/frontend/src/pages/OnboardingPage.tsx:933-935 | the messaging opt-in is stored |
| Onboarding.Controller.BeginEmailCheck | apps/frontend/src/pages/OnboardingPage.tsx:161-175 | starting the check clears the error, marks the check in flight and sends the current email |
| Onboarding.Controller.CompleteEmailCheck | apps/frontend/src/pages/OnboardingPage.tsx:176-198 | the check is no longer in flight on every path; it passes exactly when the email is not registered, and only then does the step advance |
| Onboarding.Controller.Continue | apps/frontend/src/pages/OnboardingPage.tsx:913-921 | step 5 moves to 6 exactly when the email is not registered, otherwise it stays on 5 with a non-empty error |
| Onboarding.Controller.AcceptOffer | apps/frontend/src/pages/OnboardingPage.tsx:1036 | accepting the offer moves from step 6 to step 7 |
| Onboarding.Controller.DeclineOffer | apps/frontend/src/pages/OnboardingPage.tsx:1046-1049 | "No thanks" records the refusal and shows the flash sale, staying on step 6 |
| Onboarding.Controller.ChooseFlashSaleOption | apps/frontend/src/pages/OnboardingPage.tsx:1145-1155 | either flash-sale button moves to step 7, and the choice is not recorded |
| Onboarding.Controller.SetPassword | apps/frontend/src/pages/OnboardingPage.tsx:1180 | the password is stored |
| Onboarding.Controller.SetConfirmPassword | apps/frontend/src/pages/OnboardingPage.tsx:1199 | the confirmation is stored |
| Onboarding.Controller.TickCountdown | apps/frontend/src/pages/OnboardingPage.tsx:122-130 | a countdown tick keeps the invariant (time never negative) and changes only the time |
| Onboarding.Controller.TickSeats | apps/frontend/src/pages/OnboardingPage.tsx:132-142 | a seats tick keeps the invariant (at least one seat) and changes only the seats |
| Onboarding.Controller.Submit | apps/frontend/src/pages/OnboardingPage.tsx:200-265 | the signup is sent only when the finalize checks pass, and otherwise the first failing check's message is shown; a sent request carries the email, the password that passed the match and length checks, and the display name as username; a failed signup shows its message; a created account requests the quit attempt with the chosen product and the parsed daily usage |
| Onboarding.QuestionsWalkthrough | apps/frontend/src/pages/OnboardingPage.tsx:342-737 | answering steps 1-4 through the buttons reaches step 5 with the product and usage recorded |
| Onboarding.FillIdentity | apps/frontend/src/pages/OnboardingPage.tsx:803-839 | entering a first name, last name and email that each start with a visible character enables Continue |
| Onboarding.EmailGateWalkthrough | apps/frontend/src/pages/OnboardingPage.tsx:913-921 | after the identity is filled in, a registered email keeps the wizard on step 5 and a fresh one then reaches step 6 with no error |
| Onboarding.OfferWalkthrough | apps/frontend/src/pages/OnboardingPage.tsx:132-142 | declining the offer shows the flash sale; its seat counter runs down to one, and a flash-sale button reaches step 7 |
| Onboarding.SubmitWalkthrough | apps/frontend/src/pages/OnboardingPage.tsx:200-246 | a mismatched confirmation sends nothing; a rejection without an error text is either not sent or reported as "Signup failed" |

## Left out

- Rendering, styling, hover state, the step-6 video, `getStepDescription` and `progressPercent`. These are presentation only; the percentage is also floating point.
- The auto-advance delay. Each selection handler records the answer and advances in one event. In the source, `nextStep` runs 300 ms later, so two selections within that window would advance twice. The model does not capture that.
- The random 1-5 second delay of the seats timer, and the scheduling and clean-up of intervals and timeouts. Each timer firing is one tick event whose guard is checked when it fires.
- `Draft.Rehydrate`: models a stored object whose fields have the draft's types. A stored value of another JSON type (a number where text is expected, say) is not modelled. Neither is a product type string the app does not know. The `localStorage` access and `JSON.parse`/`JSON.stringify` are the `Slot` value.
- `Text.ParseNumber`: models `parseFloat` on whole numbers only. Fractions, exponents and `Infinity` are not modelled. The wizard only ever stores whole-number strings, where `Math.round` is the identity. The source computes with IEEE doubles, so whole numbers above 2^53 lose precision there (`parseFloat("9007199254740993")` is 9007199254740992), and so can the products in `getHabitStats`; the model's integers stay exact. Such numbers reach the wizard only through a stored draft, never through its buttons.
- `Text.IsSpace`: covers ASCII white space and a few common Unicode spaces, not every Unicode space separator that `trim` removes.
- `Gateways.SubmissionError`: measures the password length in Unicode scalar values, whereas JavaScript counts UTF-16 code units. The two differ only for characters outside the Basic Multilingual Plane.
- The network calls are inputs: the email check is an `EmailResponse` and the signup an `SignupResponse`. The model leaves out `setAuth`, `toast` and `navigate`, and the quit-attempt mutation's own success or failure. It also leaves out the quit date, which comes from the clock, and the `cost` of the quit attempt, which is floating point.
- Protection against double submission or stale answers is not modelled, because the source has none.
- The settings page, the subscription modal and the migration runner are not part of this model.
