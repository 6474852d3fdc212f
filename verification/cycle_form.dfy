/** The onboarding form: the schema's two refinements, the two calendar
    pickers' disabled-date rules, and what a successful submit does. */
module CycleForm {
  import opened Wrappers
  import opened Days
  import CycleContext
  import AuthContext

  /** 2024-03-16, the earliest accepted start date, as a day number. */
  const MinimumDate: Day := 19798

  /** The two form fields. */
  datatype Field = LastPeriodStartDate | LastPeriodEndDate

  /** Why a field was rejected. */
  datatype ErrorKind = MissingDate | EndBeforeStart | StartBeforeMinimum

  /** A validation error attached to a field. */
  datatype FormError = FormError(path: Field, kind: ErrorKind)

  /** The schema. A missing date is reported on its own field and stops
      validation before the refinements. With both dates present both
      refinements run: an end before the start is reported on the end date,
      and a start before the minimum date on the start date. Neither date has
      an upper bound. */
  function Validate(start: Option<Day>, end: Option<Day>): (errors: seq<FormError>)
    ensures errors == [] <==>
      start.Some? && end.Some? && start.value <= end.value && MinimumDate <= start.value
    ensures start.Some? && end.Some? ==>
      (FormError(LastPeriodEndDate, EndBeforeStart) in errors <==> end.value < start.value)
    ensures start.Some? && end.Some? ==>
      (FormError(LastPeriodStartDate, StartBeforeMinimum) in errors <==> start.value < MinimumDate)
    ensures forall i :: 0 <= i < |errors| ==>
      (errors[i].kind == EndBeforeStart ==> errors[i].path == LastPeriodEndDate)
      && (errors[i].kind == StartBeforeMinimum ==> errors[i].path == LastPeriodStartDate)
    ensures (start.None? || end.None?) ==> forall i :: 0 <= i < |errors| ==> errors[i].kind == MissingDate
    ensures FormError(LastPeriodStartDate, MissingDate) in errors <==> start.None?
    ensures FormError(LastPeriodEndDate, MissingDate) in errors <==> end.None?
    ensures |errors| <= 2
  {
    if start.None? || end.None? then
      (if start.None? then [FormError(LastPeriodStartDate, MissingDate)] else [])
      + (if end.None? then [FormError(LastPeriodEndDate, MissingDate)] else [])
    else
      (if end.value < start.value then [FormError(LastPeriodEndDate, EndBeforeStart)] else [])
      + (if start.value < MinimumDate then [FormError(LastPeriodStartDate, StartBeforeMinimum)] else [])
  }

  /** The start picker greys out dates after today and before the minimum
      date. */
  predicate StartPickerDisables(date: Day, today: Day): (disabled: bool)
    ensures !disabled <==> MinimumDate <= date <= today
  {
    date > today || date < MinimumDate
  }

  /** The end picker greys out dates after today and, once a start is
      chosen, dates before it. */
  predicate EndPickerDisables(date: Day, today: Day, start: Option<Day>): (disabled: bool)
    ensures start.None? ==> (!disabled <==> date <= today)
    ensures start.Some? ==> (!disabled <==> start.value <= date <= today)
  {
    date > today || (start.Some? && date < start.value)
  }

  /** The minimum date itself is accepted, the day before it is not. */
  lemma MinimumDateIsInclusive(end: Day)
    requires end >= MinimumDate
    ensures Validate(Some(MinimumDate), Some(end)) == []
    ensures Validate(Some(MinimumDate - 1), Some(end)) == [FormError(LastPeriodStartDate, StartBeforeMinimum)]
  {
  }

  /** The schema sets no upper bound: dates after today are accepted; only
      the pickers keep them out. */
  lemma FutureDatesPassSchema(today: Day, start: Day, end: Day)
    requires today < start <= end && MinimumDate <= start
    ensures Validate(Some(start), Some(end)) == []
    ensures StartPickerDisables(start, today) && EndPickerDisables(end, today, Some(start))
  {
  }

  /** Any two dates the pickers offer together pass the schema, and are on or
      before today. */
  lemma PickedDatesPassSchema(today: Day, start: Day, end: Day)
    requires !StartPickerDisables(start, today)
    requires !EndPickerDisables(end, today, Some(start))
    ensures Validate(Some(start), Some(end)) == []
    ensures start <= end <= today
  {
  }

  /** The combined state the form acts on. */
  datatype AppState = AppState(cycle: CycleContext.Profile, user: Option<AuthContext.User>)

  /** The calls `onSubmit` makes, in order. The toasts are not modelled. */
  datatype Effect = StoreDates(start: Day, end: Day) | MarkOnboarded | NotifyComplete

  /** The calls of a submit with accepted values: store the dates, mark
      onboarding complete, then call the optional completion callback. */
  function SubmitEffects(start: Day, end: Day, hasOnComplete: bool): (effects: seq<Effect>)
    ensures StoreDates(start, end) in effects && MarkOnboarded in effects
  {
    [StoreDates(start, end), MarkOnboarded] + (if hasOnComplete then [NotifyComplete] else [])
  }

  /** The state after one call. */
  function Apply(state: AppState, effect: Effect): AppState {
    match effect
    case StoreDates(start, end) => state.(cycle := CycleContext.SetLastPeriodDates(state.cycle, start, end))
    case MarkOnboarded => state.(user := AuthContext.CompleteOnboarding(state.user))
    case NotifyComplete => state
  }

  /** The state after a sequence of calls. */
  function ApplyAll(state: AppState, effects: seq<Effect>): AppState
    decreases |effects|
  {
    if effects == [] then state else ApplyAll(Apply(state, effects[0]), effects[1..])
  }

  /** Submitting the form: invalid values are rejected with their errors and
      change nothing; accepted values are stored, giving a period length of
      at least one day, and the present user is marked onboarded. */
  function Submit(state: AppState, start: Option<Day>, end: Option<Day>, hasOnComplete: bool)
    : (r: Result<AppState, seq<FormError>>)
    ensures r.Failure? <==> Validate(start, end) != []
    ensures r.Failure? ==> r.error == Validate(start, end)
    ensures r.Success? ==>
      && r.value.cycle.lastPeriodStart == start
      && r.value.cycle.lastPeriodEnd == end
      && r.value.cycle.cycleLength == state.cycle.cycleLength
      && r.value.cycle.periodLength >= 1
      && r.value.cycle.periodLength == end.value - start.value + 1
      && (AuthContext.IsAuthenticated(r.value.user) <==> AuthContext.IsAuthenticated(state.user))
      && (state.user.Some? ==> r.value.user.value.isOnboarded)
      && r.value.user == AuthContext.CompleteOnboarding(state.user)
  {
    var errors := Validate(start, end);
    if errors != [] then Failure(errors)
    else
      var effects := SubmitEffects(start.value, end.value, hasOnComplete);
      var stored := Apply(state, effects[0]);
      var onboarded := Apply(stored, effects[1]);
      assert ApplyAll(onboarded, effects[2..]) == onboarded;
      assert ApplyAll(state, effects) == onboarded;
      Success(ApplyAll(state, effects))
  }

  /** When onboarding is marked complete the dates are already stored: the
      state just before every `MarkOnboarded` call holds the submitted
      dates. */
  lemma {:induction false} DatesStoredBeforeOnboarding(state: AppState, start: Day, end: Day,
                                                      hasOnComplete: bool, k: int)
    requires var effects := SubmitEffects(start, end, hasOnComplete);
      0 <= k < |effects| && effects[k] == MarkOnboarded
    ensures var effects := SubmitEffects(start, end, hasOnComplete);
      ApplyAll(state, effects[..k]).cycle.lastPeriodStart == Some(start)
      && ApplyAll(state, effects[..k]).cycle.lastPeriodEnd == Some(end)
  {
    var effects := SubmitEffects(start, end, hasOnComplete);
    assert k == 1;
    assert effects[..1] == [StoreDates(start, end)];
    assert ApplyAll(state, effects[..1]) == ApplyAll(Apply(state, effects[0]), []);
  }

  /** The calendar shows the submitted start date as menstruation after a
      successful submit. */
  lemma SubmittedStartIsMenstruation(state: AppState, start: Day, end: Day, hasOnComplete: bool)
    requires state.cycle.cycleLength >= 1
    requires Validate(Some(start), Some(end)) == []
    ensures var r := Submit(state, Some(start), Some(end), hasOnComplete);
      r.Success? && CycleContext.PhaseForDate(r.value.cycle, start) == CycleContext.Menstruation
  {
    var r := Submit(state, Some(start), Some(end), hasOnComplete);
    JsRemUnique(0, state.cycle.cycleLength, 0, 0);
  }
}
