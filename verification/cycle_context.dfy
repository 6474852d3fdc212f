/** The cycle calculator: the shared cycle profile, the cycle-day and phase
    computation for "today" and for any date, and the setter that records the
    last period. */
module CycleContext {
  import opened Wrappers
  import opened Days

  /** The four phases, in the order they occur within a cycle. */
  datatype CyclePhase = Menstruation | Follicular | Ovulation | Luteal {

    /** Position of the phase within the cycle. */
    function Rank(): nat {
      match this
      case Menstruation => 0
      case Follicular => 1
      case Ovulation => 2
      case Luteal => 3
    }
  }

  /** Initial cycle length; no setter for it is exposed, so it stays at 28. */
  const DefaultCycleLength: int := 28
  /** Initial period length, used until dates are recorded. */
  const DefaultPeriodLength: int := 5
  /** Last cycle day classified as follicular (a fixed day, not scaled). */
  const FollicularLastDay: int := 14
  /** Last cycle day classified as ovulation (a fixed day, not scaled). */
  const OvulationLastDay: int := 16
  /** Ovulation is predicted this many days before the next period. */
  const OvulationLeadDays: int := 14

  /** The state held by the cycle provider. */
  datatype Profile = Profile(
    lastPeriodStart: Option<Day>,
    lastPeriodEnd: Option<Day>,
    cycleLength: int,
    periodLength: int)

  /** The provider's state before any dates are recorded. */
  const InitialProfile: Profile :=
    Profile(None, None, DefaultCycleLength, DefaultPeriodLength)

  /** The values derived from the profile on every render. */
  datatype CycleInfo = CycleInfo(
    currentPhase: CyclePhase,
    currentCycleDay: int,
    nextPeriodStart: Option<Day>,
    nextOvulation: Option<Day>)

  /** The phase windows, stated as intervals of cycle days: menstruation up to
      the period length, then follicular up to day 14, ovulation up to day 16,
      and luteal after that. A window that starts after it ends is empty. */
  predicate InWindow(phase: CyclePhase, day: int, periodLength: int) {
    match phase
    case Menstruation => day <= periodLength
    case Follicular => periodLength < day <= FollicularLastDay
    case Ovulation => periodLength < day && FollicularLastDay < day <= OvulationLastDay
    case Luteal => periodLength < day && OvulationLastDay < day
  }

  /** The phase of a cycle day: the first matching threshold wins. */
  function Classify(day: int, periodLength: int): (phase: CyclePhase)
    ensures InWindow(phase, day, periodLength)
  {
    if day <= periodLength then Menstruation
    else if day <= FollicularLastDay then Follicular
    else if day <= OvulationLastDay then Ovulation
    else Luteal
  }

  /** The cycle day of a date `elapsed` days after the last period start,
      computed with JavaScript's truncating remainder. */
  function CycleDay(elapsed: int, cycleLength: int): (day: int)
    requires cycleLength >= 1
    ensures elapsed >= 0 ==> 1 <= day <= cycleLength
    ensures elapsed < 0 ==> 2 - cycleLength <= day <= 1
    ensures elapsed - (day - 1) == cycleLength * JsQuot(elapsed, cycleLength)
  {
    JsRem(elapsed, cycleLength) + 1
  }

  /** The provider's derived values for `today`. Without a recorded start the
      fixed default is returned. Otherwise the cycle day is the elapsed days
      reduced modulo the cycle length, the next period start is the first date
      after the remainder fills a cycle, and ovulation is predicted 14 days
      before it. */
  function CalculateCycleInfo(p: Profile, today: Day): (info: CycleInfo)
    requires p.cycleLength >= 1
    ensures p.lastPeriodStart.None? ==>
      info == CycleInfo(Follicular, 1, None, None)
    ensures p.lastPeriodStart.Some? ==>
      && info.nextPeriodStart.Some?
      && info.nextOvulation.Some?
      && info.nextOvulation.value == info.nextPeriodStart.value - OvulationLeadDays
      && info.currentPhase == Classify(info.currentCycleDay, p.periodLength)
    ensures p.lastPeriodStart.Some? ==>
      && info.currentCycleDay == CycleDay(today - p.lastPeriodStart.value, p.cycleLength)
      && info.nextPeriodStart.value == today + p.cycleLength - (info.currentCycleDay - 1)
    ensures p.lastPeriodStart.Some? && today >= p.lastPeriodStart.value ==>
      && 1 <= info.currentCycleDay <= p.cycleLength
      && today < info.nextPeriodStart.value <= today + p.cycleLength
    ensures p.lastPeriodStart.Some? && today < p.lastPeriodStart.value ==>
      && info.currentCycleDay <= 1
      && today + p.cycleLength <= info.nextPeriodStart.value < today + 2 * p.cycleLength
  {
    match p.lastPeriodStart
    case None => CycleInfo(Follicular, 1, None, None)
    case Some(start) =>
      var elapsed := DifferenceInDays(today, start);
      var day := CycleDay(elapsed, p.cycleLength);
      var daysUntilNextPeriod := p.cycleLength - JsRem(elapsed, p.cycleLength);
      var nextPeriodStart := AddDays(today, daysUntilNextPeriod);
      var nextOvulation := AddDays(nextPeriodStart, -OvulationLeadDays);
      CycleInfo(Classify(day, p.periodLength), day, Some(nextPeriodStart), Some(nextOvulation))
  }

  /** The phase the calendar shows for an arbitrary date. There is no special
      case for dates before the recorded start: the truncating remainder makes
      their cycle day at most 1. */
  function PhaseForDate(p: Profile, date: Day): (phase: CyclePhase)
    requires p.cycleLength >= 1
    ensures p.lastPeriodStart.None? ==> phase == Follicular
    ensures p.lastPeriodStart.Some? ==> phase == CalculateCycleInfo(p, date).currentPhase
    ensures p.lastPeriodStart.Some? && date < p.lastPeriodStart.value && p.periodLength >= 1 ==>
      phase == Menstruation
  {
    match p.lastPeriodStart
    case None => Follicular
    case Some(start) =>
      Classify(CycleDay(DifferenceInDays(date, start), p.cycleLength), p.periodLength)
  }

  /** Records the last period. The period length is the inclusive number of
      days from start to end; nothing is validated, so an end before the start
      gives a period length of zero or less. */
  function SetLastPeriodDates(p: Profile, start: Day, end: Day): (q: Profile)
    ensures q.lastPeriodStart == Some(start) && q.lastPeriodEnd == Some(end)
    ensures q.cycleLength == p.cycleLength
    ensures q.periodLength == end - start + 1
    ensures q.periodLength >= 1 <==> start <= end
    ensures start <= end ==> q.periodLength == |DaysOfPeriod(start, end)|
  {
    p.(lastPeriodStart := Some(start),
       lastPeriodEnd := Some(end),
       periodLength := DifferenceInDays(end, start) + 1)
  }

  /** The dates from `start` to `end`, both included. */
  function DaysOfPeriod(start: Day, end: Day): (days: seq<Day>)
    requires start <= end
    ensures |days| >= 1 && days[0] == start && days[|days| - 1] == end
    ensures forall i :: 0 <= i < |days| ==> days[i] == start + i
    decreases end - start
  {
    if start == end then [start] else [start] + DaysOfPeriod(start + 1, end)
  }

  /** Exactly one phase window contains any given day, so the classifier is
      total and its phases are exclusive. */
  lemma WindowsPartition(day: int, periodLength: int, phase: CyclePhase)
    ensures InWindow(phase, day, periodLength) <==> phase == Classify(day, periodLength)
  {
  }

  /** With the initial lengths the phases cover cycle days 1-5, 6-14, 15-16
      and 17-28. Day 14 is follicular, not ovulation. */
  lemma DefaultPhaseDays(day: int)
    requires 1 <= day <= DefaultCycleLength
    ensures Classify(day, DefaultPeriodLength) == Menstruation <==> 1 <= day <= 5
    ensures Classify(day, DefaultPeriodLength) == Follicular <==> 6 <= day <= 14
    ensures Classify(day, DefaultPeriodLength) == Ovulation <==> 15 <= day <= 16
    ensures Classify(day, DefaultPeriodLength) == Luteal <==> 17 <= day <= 28
  {
  }

  /** As the cycle day advances the phase never moves backwards. */
  lemma PhaseOrderFollowsDays(d1: int, d2: int, periodLength: int)
    requires d1 <= d2
    ensures Classify(d1, periodLength).Rank() <= Classify(d2, periodLength).Rank()
  {
  }

  /** The elapsed days and the cycle day differ by a whole number of cycles,
      and for dates on or after the start the difference from the start to
      the next period is a positive whole number of cycles. */
  lemma NextPeriodIsWholeCycles(p: Profile, today: Day)
    requires p.cycleLength >= 1 && p.lastPeriodStart.Some?
    ensures var info := CalculateCycleInfo(p, today);
      var start := p.lastPeriodStart.value;
      (info.nextPeriodStart.value - start) % p.cycleLength == 0
      && (today >= start ==> info.nextPeriodStart.value - start >= p.cycleLength)
  {
    var info := CalculateCycleInfo(p, today);
    var start, L := p.lastPeriodStart.value, p.cycleLength;
    var elapsed := today - start;
    var q := JsQuot(elapsed, L);
    assert info.nextPeriodStart.value - start == L * (q + 1);
    MulMod(L, q + 1);
    if today >= start {
      JsRemOfNonNegative(elapsed, L);
      MulAtLeast(L, q + 1);
    }
  }

  /** `b * k` is divisible by `b`. */
  lemma {:induction false} MulMod(b: int, k: int)
    requires b >= 1
    ensures (b * k) % b == 0
  {
    var r := (b * k) % b;
    var q := (b * k) / b;
    assert b * k == b * q + r;
    assert b * (k - q) == r;
    if k - q > 0 {
      MulAtLeast(b, k - q);
    } else if k - q < 0 {
      MulAtLeast(b, q - k);
    }
  }

  /** For a date on or after the start, the next period start is the only
      date that is strictly after today, at most one cycle ahead, and a whole
      number of cycles after the start. */
  lemma {:induction false} NextPeriodIsUnique(p: Profile, today: Day, candidate: Day, k: int)
    requires p.cycleLength >= 1 && p.lastPeriodStart.Some?
    requires today >= p.lastPeriodStart.value
    requires today < candidate <= today + p.cycleLength
    requires candidate - p.lastPeriodStart.value == p.cycleLength * k
    ensures candidate == CalculateCycleInfo(p, today).nextPeriodStart.value
  {
    var start, L := p.lastPeriodStart.value, p.cycleLength;
    var elapsed := today - start;
    // Today lies in the cycle that ends the day before the candidate.
    var r := L - (candidate - today);
    assert L * (k - 1) == L * k - L;
    assert elapsed == L * (k - 1) + r;
    JsRemUnique(elapsed, L, k - 1, r);
  }

  /** One cycle later the cycle day and phase repeat and the next period
      start moves on by exactly one cycle. */
  lemma {:induction false} CycleRepeats(p: Profile, today: Day)
    requires p.cycleLength >= 1 && p.lastPeriodStart.Some?
    requires today >= p.lastPeriodStart.value
    ensures var now := CalculateCycleInfo(p, today);
      var later := CalculateCycleInfo(p, today + p.cycleLength);
      && later.currentCycleDay == now.currentCycleDay
      && later.currentPhase == now.currentPhase
      && later.nextPeriodStart.value == now.nextPeriodStart.value + p.cycleLength
      && later.nextOvulation.value == now.nextOvulation.value + p.cycleLength
  {
    JsRemShift(today - p.lastPeriodStart.value, p.cycleLength);
  }

  /** Before any dates are recorded the provider reports the follicular
      phase on day 1 with no predictions, and every calendar day shows the
      follicular phase, on every date. */
  lemma NothingRecordedDefaults(today: Day, date: Day)
    ensures CalculateCycleInfo(InitialProfile, today) == CycleInfo(Follicular, 1, None, None)
    ensures PhaseForDate(InitialProfile, date) == Follicular
    ensures InitialProfile.cycleLength == 28 && InitialProfile.periodLength == 5
  {
  }

  /** The calendar's phase for today agrees with the provider's current
      phase. */
  lemma TodayPhaseAgrees(p: Profile, today: Day)
    requires p.cycleLength >= 1
    ensures PhaseForDate(p, today) == CalculateCycleInfo(p, today).currentPhase
  {
  }

  /** After recording a period that is shorter than the cycle, every recorded
      day is classified as menstruation and the day after the end is not. */
  lemma {:induction false} RecordedPeriodIsMenstruation(p: Profile, start: Day, end: Day, date: Day)
    requires p.cycleLength >= 1
    requires start <= end && end - start < p.cycleLength
    ensures var q := SetLastPeriodDates(p, start, end);
      && (start <= date <= end ==> PhaseForDate(q, date) == Menstruation)
      && (end + 1 - start < p.cycleLength ==> PhaseForDate(q, end + 1) != Menstruation)
  {
    var q := SetLastPeriodDates(p, start, end);
    var L := p.cycleLength;
    if start <= date <= end {
      JsRemUnique(date - start, L, 0, date - start);
    }
    if end + 1 - start < L {
      JsRemUnique(end + 1 - start, L, 0, end + 1 - start);
    }
  }
}
