# CLOVE cycle calculator and its consumers, in Dafny

This project models the logic of the CLOVE wellness web application. CLOVE links a
user's menstrual cycle phase to skincare guidance.

The core is the cycle calculator held by the cycle provider. It takes the recorded
last-period start, the cycle length (28) and the period length, and derives:

- the current cycle day;
- the phase: menstruation, follicular, ovulation or luteal;
- the next period start;
- the next ovulation.

It also gives the phase for any calendar date, and its setter derives the period
length from the recorded start and end dates.

The pure logic that consumes these values is modelled around the core:

- the six-cycle prediction list;
- the dashboard reminder list, sorted by date and cut to three;
- the phase-based product recommendations and the price / clean / cruelty-free filter;
- GlowBot's send guard and keyword-based reply choice;
- the onboarding form's schema, date pickers and submit order;
- the mock authentication state machine.

Modelling choices:

- A date is an integer day number: days since 1970-01-01 in the local calendar.
  `differenceInDays(a, b)` is `a - b` and `addDays(d, n)` is `d + n`.
- "Today" is a parameter, not a clock reading.
- JavaScript's `%` truncates toward zero. It is modelled by `Days.JsRem`, not by
  Dafny's Euclidean `%`. This matters for dates before the recorded start.
- Every `T | null` is an `Option`.
- Each React state setter becomes a pure function from the old state to the new one.

Modules, one per source component:

- `Wrappers`
- `Days`
- `CycleContext` (src/context/CycleContext.tsx)
- `CyclePredictor` (src/pages/CyclePredictor.tsx)
- `UpcomingEvents` (src/components/dashboard/UpcomingEvents.tsx)
- `BeautyRecommender` (src/components/features/BeautyRecommender.tsx)
- `GlowBot` (src/components/features/GlowBot.tsx)
- `CycleForm` (src/components/onboarding/CycleForm.tsx)
- `AuthContext` (src/context/AuthContext.tsx)

## Behaviour of the code that the model keeps

- **Phase thresholds are fixed.** Both classifiers (src/context/CycleContext.tsx:75-83
  and 100-108) compare the cycle day with the literals 14 and 16. Those boundaries do
  not move with the cycle length; only the menstruation boundary does, through the
  period length. With the defaults the phases cover days 1-5, 6-14, 15-16 and 17-28
  (`CycleContext.DefaultPhaseDays`). The calendar legend
  (src/pages/CyclePredictor.tsx:124-125) labels follicular "6-14" and ovulation
  "14-16", so it claims day 14 for both. The code puts day 14 in follicular only.
- **Dates before the recorded start get no special case.** Neither
  `calculateCycleInfo` (src/context/CycleContext.tsx:63-64) nor
  `getCyclePhaseForDate` (src/context/CycleContext.tsx:97-98) tests whether the date
  precedes the start. The truncating remainder then gives a cycle day between `2 - L`
  and `1`. With a positive period length such dates are menstruation
  (`CycleContext.PhaseForDate`), and the next period start lies `L` to `2L - 1` days
  ahead.
- **`setLastPeriodDates` does not validate.** The setter
  (src/context/CycleContext.tsx:112-116) stores any two dates and sets the period
  length to `end - start + 1`. Only the form schema checks the order of the dates. If
  the setter is called with an end before the start, the period length is zero or
  less (`CycleContext.SetLastPeriodDates`).
- **The cycle length stays 28.** The provider creates `setCycleLength`
  (src/context/CycleContext.tsx:48). It is not part of the context type (lines 14-25)
  or of the provided value (lines 122-133), so no code changes the cycle length. The
  model keeps the length as a field and requires it to be at least 1.
- **The minimum start date is inclusive.** The form hint
  (src/components/onboarding/CycleForm.tsx:150) asks for a start "after March 16th,
  2024". The schema accepts that date itself (`CycleForm.MinimumDateIsInclusive`).

## Model

| member | source | states |
|---|---|---|
| Days.JsRem | src/context/CycleContext.tsx:64 | The remainder has the sign of the dividend and is smaller than the divisor in size. It differs from the dividend by a whole number of divisors, as JavaScript's `%` does. |
| CycleContext.Classify | src/context/CycleContext.tsx:74-83 | The phase returned is the one whose day window contains the day: menstruation up to the period length, follicular to day 14, ovulation to day 16, luteal after. |
| CycleContext.CycleDay | src/context/CycleContext.tsx:63-64 | From the start onward the cycle day is in 1..L; before the start it is in 2-L..1. In both cases it is congruent to the elapsed days plus one. |
| CycleContext.CalculateCycleInfo | src/context/CycleContext.tsx:52-91 | Without a start: follicular, day 1, no dates. With a start: the day is the truncating remainder of the elapsed days plus one, the next period is `L - (day - 1)` days after today, ovulation is 14 days before the next period, and the phase is the classification of the day. From the start onward the day is in 1..L and the next period is 1..L days ahead; before the start the day is at most 1 and the next period is L..2L-1 days ahead. |
| CycleContext.PhaseForDate | src/context/CycleContext.tsx:94-109 | Follicular without a start. With a start, the phase for a date is the provider's current phase computed as if that date were today. A date before the start, with period length at least 1, is menstruation. |
| CycleContext.SetLastPeriodDates | src/context/CycleContext.tsx:112-116 | Stores both dates and leaves the cycle length unchanged. The period length is `end - start + 1`, the inclusive day count from start to end. It is at least 1 exactly when the end is not before the start. |
| CycleContext.DaysOfPeriod | src/context/CycleContext.tsx:115 | The inclusive run of dates from start to end, whose length is the derived period length. |
| CycleContext.NothingRecordedDefaults | src/context/CycleContext.tsx:46-60 | With nothing recorded: follicular, day 1, no predicted dates, every date follicular, lengths 28 and 5. |
| CycleContext.WindowsPartition | src/context/CycleContext.tsx:75-83 | Exactly one phase window holds any day: the classifier is total and its phases exclusive. |
| CycleContext.DefaultPhaseDays | src/context/CycleContext.tsx:75-83 | With lengths 28 and 5 the phases are days 1-5, 6-14, 15-16 and 17-28. |
| CycleContext.PhaseOrderFollowsDays | src/context/CycleContext.tsx:75-83 | A later cycle day never has an earlier phase. |
| CycleContext.NextPeriodIsWholeCycles | src/context/CycleContext.tsx:67-68 | The next period start is a whole number of cycles after the recorded start. From the start onward that number is positive. |
| CycleContext.NextPeriodIsUnique | src/context/CycleContext.tsx:67-68 | From the start onward, the next period start is the only date after today, at most one cycle ahead, that is a whole number of cycles after the start. |
| CycleContext.CycleRepeats | src/context/CycleContext.tsx:63-83 | One cycle later the day and phase repeat, and the next period and ovulation move on by one cycle. |
| CycleContext.TodayPhaseAgrees | src/context/CycleContext.tsx:63-108 | The phase for today's date equals the provider's current phase. |
| CycleContext.RecordedPeriodIsMenstruation | src/context/CycleContext.tsx:112-116 | After recording a period shorter than the cycle, every recorded day is menstruation and the day after the end is not. |
| CyclePredictor.PredictionsFrom | src/pages/CyclePredictor.tsx:59-70 | Prediction i starts i cycles after the first start. It ends 4 days after its start and has ovulation 14 days before it. |
| CyclePredictor.GenerateCyclePredictions | src/pages/CyclePredictor.tsx:54-73 | Empty without both dates. Otherwise exactly 6 predictions: the first starts on the next period start and the starts are `next + i*L`, strictly increasing when L is at least 1. Each prediction ends 4 days after its start and has ovulation 14 days before it. |
| CyclePredictor.FirstPredictionMatchesContext | src/pages/CyclePredictor.tsx:60-67 | The first predicted start and ovulation equal the provider's next period and next ovulation. Every prediction ends 4 days after it starts, whatever period length was recorded. |
| UpcomingEvents.SkincareReminder | src/components/dashboard/UpcomingEvents.tsx:57-75 | A skincare reminder exists exactly in the luteal and follicular phases, and it is dated after today. |
| UpcomingEvents.BuildEvents | src/components/dashboard/UpcomingEvents.tsx:30-75 | At most 3 events, with distinct ids. There is a next-period event iff the next period is known, dated on it, and the same holds for ovulation. A luteal reminder iff luteal (today+1), a follicular reminder iff follicular (today+2). |
| UpcomingEvents.InsertByDate | src/components/dashboard/UpcomingEvents.tsx:78 | Inserting one event into the sorted list gives a list one longer that contains the new event and every old one, and nothing else. |
| UpcomingEvents.SortByDate | src/components/dashboard/UpcomingEvents.tsx:78 | The date sort keeps the length and holds exactly the events of its input. |
| UpcomingEvents.InsertIsPermutation | src/components/dashboard/UpcomingEvents.tsx:78 | Insertion adds exactly the new event. |
| UpcomingEvents.InsertKeepsOrder | src/components/dashboard/UpcomingEvents.tsx:78 | Insertion into a date-sorted list keeps it sorted. |
| UpcomingEvents.InsertKeepsDistinctIds | src/components/dashboard/UpcomingEvents.tsx:78 | Inserting an event with a new id keeps the ids distinct. |
| UpcomingEvents.ElementsOfInsert | src/components/dashboard/UpcomingEvents.tsx:78 | Every event after an insertion is the inserted one or an old one. |
| UpcomingEvents.SortIsPermutation | src/components/dashboard/UpcomingEvents.tsx:78 | The sort is a permutation of its input. |
| UpcomingEvents.SortIsOrdered | src/components/dashboard/UpcomingEvents.tsx:78 | The sort's output is in non-decreasing date order. |
| UpcomingEvents.SortKeepsDistinctIds | src/components/dashboard/UpcomingEvents.tsx:78 | The sort keeps the ids distinct. |
| UpcomingEvents.Take | src/components/dashboard/UpcomingEvents.tsx:81 | `slice(0, n)` is a prefix of length min(n, length). |
| UpcomingEvents.UpcomingEvents | src/components/dashboard/UpcomingEvents.tsx:26-81 | Empty without a recorded start. Otherwise it is a permutation of the built events, so the cut to three drops nothing. It is sorted by date, has distinct ids and at most 3 entries. |
| UpcomingEvents.OvulationListedBeforePeriod | src/components/dashboard/UpcomingEvents.tsx:35-81 | With a recorded start, both cycle events are shown, ovulation before the next period. |
| UpcomingEvents.SkincareShownOnlyInLutealOrFollicular | src/components/dashboard/UpcomingEvents.tsx:57-81 | A skincare event is shown iff the phase is luteal or follicular. |
| BeautyRecommender.Filter | src/components/features/BeautyRecommender.tsx:243-260 | The result is a subsequence of the input, every element passes the test, and each passing element occurs exactly as often as in the input. |
| BeautyRecommender.Recommendations | src/components/features/BeautyRecommender.tsx:219-240 | A subsequence of the catalogue whose every product has a tag of the phase's set. Each such product occurs exactly as often as in the catalogue, and no other product occurs. It takes no filter settings. |
| BeautyRecommender.FilteredProducts | src/components/features/BeautyRecommender.tsx:243-260 | A subsequence of the catalogue holding exactly the products in the inclusive price range that are clean or cruelty-free when those toggles are on. Each passing product occurs exactly as often as in the catalogue. |
| BeautyRecommender.StricterFiltersPassLess | src/components/features/BeautyRecommender.tsx:245-257 | A product passing stricter settings passes looser ones. |
| BeautyRecommender.FilterIsMonotone | src/components/features/BeautyRecommender.tsx:243-260 | A stricter test keeps a subsequence of what a looser test keeps. |
| BeautyRecommender.SubsequenceOfTail | src/components/features/BeautyRecommender.tsx:243 | A subsequence of a list stays one when an element is put in front. |
| BeautyRecommender.SubsequenceDropsHead | src/components/features/BeautyRecommender.tsx:243 | Dropping the first element of a subsequence keeps it a subsequence. |
| BeautyRecommender.NarrowingNeverAdds | src/components/features/BeautyRecommender.tsx:243-260 | Enabling a toggle or narrowing the price range shows a subsequence of what was shown before. |
| BeautyRecommender.FilterKeepsAll | src/components/features/BeautyRecommender.tsx:243-260 | A test every element passes returns the list unchanged. |
| BeautyRecommender.DefaultFiltersShowCatalogue | src/components/features/BeautyRecommender.tsx:32-34 | With range 0-100 and both toggles off, the whole catalogue is shown, in order. |
| BeautyRecommender.HydratingSuitsTwoPhases | src/components/features/BeautyRecommender.tsx:221-232 | The first cleanser, tagged 'Hydrating', is recommended in both menstruation and ovulation. |
| GlowBot.LowerChar | src/components/features/GlowBot.tsx:72 | ASCII capitals map to the letter 32 code points higher; every other character is kept. |
| GlowBot.ToLower | src/components/features/GlowBot.tsx:72 | Lower-casing keeps the length, maps each character, and leaves no ASCII capital. |
| GlowBot.SelectReply | src/components/features/GlowBot.tsx:69-96 | A breakout reply iff the text mentions breaking out or acne. Otherwise a routine reply iff it mentions products or routines; otherwise the hormonal reply iff it mentions hormonal. The fallback is returned iff no keyword matches, and the greeting is never a reply. A breakout question gets the luteal reply iff the phase is luteal and the menstruation reply iff it is menstruation. A routine question gets the follicular, ovulation and luteal replies iff the phase is follicular, ovulation and luteal respectively. |
| GlowBot.TrimStart | src/components/features/GlowBot.tsx:52 | Drops a whitespace prefix: the result is a suffix of the input that starts with a non-whitespace character or is empty. |
| GlowBot.TrimEnd | src/components/features/GlowBot.tsx:52 | Drops a whitespace suffix: the result is a prefix of the input that ends with a non-whitespace character or is empty. |
| GlowBot.Trim | src/components/features/GlowBot.tsx:52 | The trimmed text is a contiguous part of the input with only whitespace cut off before and after it, and it is empty or begins and ends with a non-whitespace character. |
| GlowBot.IsBlank | src/components/features/GlowBot.tsx:52 | Text is blank, its trim being empty, exactly when every character is JavaScript whitespace. |
| GlowBot.SendMessage | src/components/features/GlowBot.tsx:51-65 | Blank text changes nothing. Otherwise exactly one user message with the unchanged text is appended, the input is cleared and a reply is pending. |
| GlowBot.ReceiveReply | src/components/features/GlowBot.tsx:98-106 | The chosen reply is appended as one bot message and nothing stays pending. |
| GlowBot.ShowsSuggestions | src/components/features/GlowBot.tsx:178 | The suggested questions are shown while the chat holds at most two messages. |
| GlowBot.StepKeepsChatWellFormed | src/components/features/GlowBot.tsx:51-106 | One send or reply keeps the greeting first and every user message non-blank, and adds one message exactly when it is a reply or a non-blank send. |
| GlowBot.RunKeepsChatWellFormed | src/components/features/GlowBot.tsx:51-106 | Along any sequence of sends and replies the chat stays well formed, earlier messages are never changed, and it grows by one message per accepted event. |
| GlowBot.SuggestionsShownUntilSecondMessage | src/components/features/GlowBot.tsx:178 | From the greeting, the suggestions are visible exactly while at most one event has added a message. |
| GlowBot.LowerIsIdempotent | src/components/features/GlowBot.tsx:72 | Lower-casing twice equals lower-casing once. |
| GlowBot.ReplyIgnoresCase | src/components/features/GlowBot.tsx:72 | A text and its lower-cased form get the same reply, so matching ignores case. |
| GlowBot.HormonalAcneGetsAcneReply | src/components/features/GlowBot.tsx:38 | "How can I reduce hormonal acne?" gets a breakout reply in every phase. |
| GlowBot.PhaseSharedReplies | src/components/features/GlowBot.tsx:74-91 | Breakout questions get one reply in both follicular and ovulation. Routine questions during menstruation get the final-case reply. |
| GlowBot.SuggestionsHideAfterFirstExchange | src/components/features/GlowBot.tsx:178 | Suggestions show with 1 and 2 messages and hide once the first reply makes 3. |
| CycleForm.Validate | src/components/onboarding/CycleForm.tsx:32-46 | No errors iff both dates are present, the end is not before the start, and the start is not before 2024-03-16. An end-before-start error is raised iff the end is before the start, on the end field. A too-early error is raised iff the start is early, on the start field. A missing date gives only missing-date errors: a missing-date error is reported on a field iff that date is missing, and there are at most two errors. |
| CycleForm.StartPickerDisables | src/components/onboarding/CycleForm.tsx:140-143 | Definition: the start picker disables dates after today and before 2024-03-16, so it enables exactly 2024-03-16 to today. |
| CycleForm.EndPickerDisables | src/components/onboarding/CycleForm.tsx:187-190 | Definition: the end picker disables dates after today and, once a start is chosen, dates before it. |
| CycleForm.MinimumDateIsInclusive | src/components/onboarding/CycleForm.tsx:43-45 | A start on 2024-03-16 is accepted; the day before is rejected with exactly the too-early error. |
| CycleForm.FutureDatesPassSchema | src/components/onboarding/CycleForm.tsx:32-46 | Dates after today pass the schema, but both pickers disable them. |
| CycleForm.PickedDatesPassSchema | src/components/onboarding/CycleForm.tsx:140-190 | Any start and end the pickers allow together pass the schema and are on or before today. |
| CycleForm.SubmitEffects | src/components/onboarding/CycleForm.tsx:73-83 | A submit stores the dates and marks onboarding complete. |
| CycleForm.Submit | src/components/onboarding/CycleForm.tsx:68-93 | Fails with the schema's errors iff there are any. On success both dates are stored, the cycle length is unchanged, the period length is end-start+1 and at least 1, authentication is unchanged, and a present user is onboarded. The user becomes exactly what completing onboarding gives, so the id, name and email are kept. |
| CycleForm.DatesStoredBeforeOnboarding | src/components/onboarding/CycleForm.tsx:73-76 | When onboarding is marked complete, the state already holds the submitted dates. |
| CycleForm.SubmittedStartIsMenstruation | src/components/onboarding/CycleForm.tsx:73 | After an accepted submit the calendar shows the start date as menstruation. |
| AuthContext.IsAuthenticated | src/context/AuthContext.tsx:75 | Definition: `!!user`, signed in exactly when a user is present. |
| AuthContext.Login | src/context/AuthContext.tsx:39-48 | Authenticated with the given email, id "1", the fixed name "Lily Johnson", and onboarded. |
| AuthContext.Signup | src/context/AuthContext.tsx:50-59 | Authenticated with the given name and email, id "1", and not onboarded. |
| AuthContext.Logout | src/context/AuthContext.tsx:61-63 | Not authenticated afterwards. |
| AuthContext.CompleteOnboarding | src/context/AuthContext.tsx:65-69 | Authentication is unchanged, so it is a no-op without a user. A present user becomes onboarded with the same id, name and email. |
| AuthContext.CompleteOnboardingIsIdempotent | src/context/AuthContext.tsx:65-69 | Completing onboarding twice equals completing it once. |
| AuthContext.LoginIgnoresPassword | src/context/AuthContext.tsx:39-48 | Two logins that differ only in the password give the same state. |
| AuthContext.SignupThenOnboardingMatchesLogin | src/context/AuthContext.tsx:39-69 | Signing up as "Lily Johnson" and completing onboarding reaches the state of a login with the same email. |
| AuthContext.RunKeepsMockId | src/context/AuthContext.tsx:36-69 | Along any sequence of operations, every present user has id "1". |
| AuthContext.LogoutForgetsHistory | src/context/AuthContext.tsx:61-63 | After a logout, earlier operations have no effect on any later state. |

## Left out

- Rendering is not modelled: JSX, CSS classes, icons, and the static copy and lookup
  tables (phase descriptions, reply texts, event titles and descriptions, product
  descriptions, images, ratings and categories). None of them takes part in a decision.
- The clock: `new Date()` becomes an explicit `today`. Message ids, timestamps, time of
  day, daylight saving and date-fns rounding of partial days are not modelled. A date
  is a whole day number.
- Month navigation and the calendar's per-day rendering (`isSameMonth`, `isToday`)
  are not modelled.
- Timers and async work are not modelled: GlowBot's 1.5-second reply delay is split
  into `SendMessage` and `ReceiveReply`. Auto-scrolling, React batching and the
  context plumbing are left out too.
- Route guards, redirects, the toasts, and the `catch` branch of `onSubmit` are not
  modelled. Nothing in the modelled calls can throw.
- The send button's disabled state (blank input or a pending reply) is not modelled.
  The guard inside the send handler is.
- GlowBot.ToLower: lower-cases ASCII letters only; Unicode case mapping is not modelled.
- GlowBot.LowerChar: maps the ASCII capitals only, for the same reason; a non-ASCII
  capital is kept as it is.
- The progress percentage and product ratings are floating point and never used in a
  decision.
- zod and react-hook-form internals are not modelled beyond the two refinements and
  the required-field check.
- UpcomingEvents.SortByDate: the insertion sort is stable, like JavaScript's sort. Only
  order and permutation are stated about it, not stability.
