/** The dashboard's "Upcoming Reminders" list: events built from the cycle
    values, sorted by date and cut to the first three. */
module UpcomingEvents {
  import opened Wrappers
  import opened Days
  import opened CycleContext

  /** The badge type of an event; `Reminder` is declared but never built. */
  datatype EventKind = Reminder | Cycle | Skincare

  /** An event of the list; its title and description are static copy and
      are not modelled. */
  datatype Event = Event(id: EventId, date: Day, kind: EventKind)

  /** The four identifiers an event can carry (`'next-period'`,
      `'next-ovulation'`, `'luteal-reminder'`, `'follicular-reminder'`). */
  datatype EventId = NextPeriodId | NextOvulationId | LutealReminderId | FollicularReminderId

  /** How many events the card shows. */
  const ShownEventCount: nat := 3

  /** Some event of the list carries the identifier `id`. */
  predicate HasId(events: seq<Event>, id: EventId) {
    exists e :: e in events && e.id == id
  }

  /** No two events of the list share an identifier. */
  predicate DistinctIds(events: seq<Event>) {
    forall i, j :: 0 <= i < j < |events| ==> events[i].id != events[j].id
  }

  /** The events are in non-decreasing date order. */
  predicate SortedByDate(events: seq<Event>) {
    forall i, j :: 0 <= i < j < |events| ==> events[i].date <= events[j].date
  }

  /** The skincare reminder for the current phase, if that phase has one:
      luteal gets one tomorrow, follicular one the day after. */
  function SkincareReminder(phase: CyclePhase, today: Day): (reminder: Option<Event>)
    ensures reminder.Some? <==> phase == Luteal || phase == Follicular
    ensures reminder.Some? ==> reminder.value.kind == Skincare && reminder.value.date > today
  {
    match phase
    case Luteal => Some(Event(LutealReminderId, AddDays(today, 1), Skincare))
    case Follicular => Some(Event(FollicularReminderId, AddDays(today, 2), Skincare))
    case _ => None
  }

  /** The events before sorting: the next period and next ovulation when they
      are known, then at most one skincare reminder. */
  function BuildEvents(info: CycleInfo, today: Day): (events: seq<Event>)
    ensures |events| <= ShownEventCount
    ensures DistinctIds(events)
    ensures HasId(events, NextPeriodId) <==> info.nextPeriodStart.Some?
    ensures info.nextPeriodStart.Some? ==>
      Event(NextPeriodId, info.nextPeriodStart.value, Cycle) in events
    ensures HasId(events, NextOvulationId) <==> info.nextOvulation.Some?
    ensures info.nextOvulation.Some? ==>
      Event(NextOvulationId, info.nextOvulation.value, Cycle) in events
    ensures HasId(events, LutealReminderId) <==> info.currentPhase == Luteal
    ensures info.currentPhase == Luteal ==>
      Event(LutealReminderId, today + 1, Skincare) in events
    ensures HasId(events, FollicularReminderId) <==> info.currentPhase == Follicular
    ensures info.currentPhase == Follicular ==>
      Event(FollicularReminderId, today + 2, Skincare) in events
    ensures forall i :: 0 <= i < |events| ==>
      events[i].kind == Skincare ==> info.currentPhase in {Luteal, Follicular}
  {
    var period := if info.nextPeriodStart.Some?
      then [Event(NextPeriodId, info.nextPeriodStart.value, Cycle)] else [];
    var ovulation := if info.nextOvulation.Some?
      then [Event(NextOvulationId, info.nextOvulation.value, Cycle)] else [];
    var reminder := SkincareReminder(info.currentPhase, today);
    var skincare := if reminder.Some? then [reminder.value] else [];
    period + ovulation + skincare
  }

  /** Inserts `e` before the first event that is not earlier than it. */
  function InsertByDate(e: Event, events: seq<Event>): (r: seq<Event>)
    ensures |r| == |events| + 1
    ensures e in r && forall x :: x in events ==> x in r
    ensures forall x :: x in r ==> x == e || x in events
  {
    if events == [] || e.date <= events[0].date then [e] + events
    else [events[0]] + InsertByDate(e, events[1..])
  }

  /** A stable sort by ascending date, as JavaScript's `Array.prototype.sort`
      performs with the comparator `a.date - b.date`: each event goes in
      front of the already sorted later events that are not earlier than it. */
  function SortByDate(events: seq<Event>): (r: seq<Event>)
    ensures |r| == |events|
    ensures forall x :: x in r <==> x in events
  {
    if events == [] then [] else InsertByDate(events[0], SortByDate(events[1..]))
  }

  /** Insertion adds `e` and loses nothing. */
  lemma {:induction false} InsertIsPermutation(e: Event, events: seq<Event>)
    ensures multiset(InsertByDate(e, events)) == multiset(events) + multiset{e}
  {
    if events == [] || e.date <= events[0].date {
    } else {
      InsertIsPermutation(e, events[1..]);
      assert events == [events[0]] + events[1..];
    }
  }

  /** Every event of `r` is `e` or an event of `events`. */
  lemma ElementsOfInsert(e: Event, events: seq<Event>, k: int)
    requires 0 <= k < |InsertByDate(e, events)|
    ensures var x := InsertByDate(e, events)[k];
      x == e || exists m :: 0 <= m < |events| && events[m] == x
  {
    InsertIsPermutation(e, events);
    var x := InsertByDate(e, events)[k];
    assert x in multiset(InsertByDate(e, events));
  }

  /** Insertion into a date-sorted list keeps it sorted. */
  lemma {:induction false} InsertKeepsOrder(e: Event, events: seq<Event>)
    requires SortedByDate(events)
    ensures SortedByDate(InsertByDate(e, events))
  {
    if events == [] || e.date <= events[0].date {
    } else {
      var head, tail := events[0], events[1..];
      var rest := InsertByDate(e, tail);
      InsertKeepsOrder(e, tail);
      forall k | 0 <= k < |rest| ensures head.date <= rest[k].date {
        ElementsOfInsert(e, tail, k);
        if rest[k] != e {
          var m :| 0 <= m < |tail| && tail[m] == rest[k];
          assert events[m + 1] == rest[k];
        }
      }
      assert InsertByDate(e, events) == [head] + rest;
    }
  }

  /** Inserting an event whose identifier is new keeps identifiers distinct. */
  lemma {:induction false} InsertKeepsDistinctIds(e: Event, events: seq<Event>)
    requires DistinctIds(events)
    requires forall i :: 0 <= i < |events| ==> events[i].id != e.id
    ensures DistinctIds(InsertByDate(e, events))
  {
    if events == [] || e.date <= events[0].date {
    } else {
      var head, tail := events[0], events[1..];
      var rest := InsertByDate(e, tail);
      InsertKeepsDistinctIds(e, tail);
      forall k | 0 <= k < |rest| ensures head.id != rest[k].id {
        ElementsOfInsert(e, tail, k);
        if rest[k] != e {
          var m :| 0 <= m < |tail| && tail[m] == rest[k];
          assert events[m + 1] == rest[k];
        }
      }
      assert InsertByDate(e, events) == [head] + rest;
    }
  }

  /** Sorting is a permutation. */
  lemma {:induction false} SortIsPermutation(events: seq<Event>)
    ensures multiset(SortByDate(events)) == multiset(events)
  {
    if events != [] {
      SortIsPermutation(events[1..]);
      InsertIsPermutation(events[0], SortByDate(events[1..]));
      assert events == [events[0]] + events[1..];
    }
  }

  /** Sorting orders the events by date. */
  lemma {:induction false} SortIsOrdered(events: seq<Event>)
    ensures SortedByDate(SortByDate(events))
  {
    if events != [] {
      SortIsOrdered(events[1..]);
      InsertKeepsOrder(events[0], SortByDate(events[1..]));
    }
  }

  /** Sorting keeps identifiers distinct. */
  lemma {:induction false} SortKeepsDistinctIds(events: seq<Event>)
    requires DistinctIds(events)
    ensures DistinctIds(SortByDate(events))
  {
    if events != [] {
      var head, tail := events[0], events[1..];
      var rest := SortByDate(tail);
      SortKeepsDistinctIds(tail);
      SortIsPermutation(tail);
      forall k | 0 <= k < |rest| ensures rest[k].id != head.id {
        assert rest[k] in multiset(tail);
        var m :| 0 <= m < |tail| && tail[m] == rest[k];
        assert events[m + 1] == rest[k];
      }
      InsertKeepsDistinctIds(head, rest);
    }
  }

  /** JavaScript's `slice(0, n)`. */
  function Take(events: seq<Event>, n: nat): (r: seq<Event>)
    ensures |r| == if |events| < n then |events| else n
    ensures r <= events
  {
    if |events| <= n then events else events[..n]
  }

  /** The card's events for `today`: nothing before a period start is
      recorded; otherwise the built events in date order, at most three. */
  function UpcomingEvents(p: Profile, today: Day): (shown: seq<Event>)
    requires p.cycleLength >= 1
    ensures p.lastPeriodStart.None? ==> shown == []
    ensures p.lastPeriodStart.Some? ==>
      multiset(shown) == multiset(BuildEvents(CalculateCycleInfo(p, today), today))
    ensures SortedByDate(shown)
    ensures DistinctIds(shown)
    ensures |shown| <= ShownEventCount
  {
    if p.lastPeriodStart.None? then []
    else
      var built := BuildEvents(CalculateCycleInfo(p, today), today);
      SortIsPermutation(built);
      SortIsOrdered(built);
      SortKeepsDistinctIds(built);
      Take(SortByDate(built), ShownEventCount)
  }

  /** Once a period start is recorded the card always lists the next period
      and the next ovulation, the ovulation first, and a skincare reminder
      exactly in the luteal and follicular phases. */
  lemma {:induction false} OvulationListedBeforePeriod(p: Profile, today: Day)
    requires p.cycleLength >= 1 && p.lastPeriodStart.Some?
    ensures var info := CalculateCycleInfo(p, today);
      var shown := UpcomingEvents(p, today);
      exists i, j :: 0 <= i < j < |shown|
        && shown[i] == Event(NextOvulationId, info.nextOvulation.value, Cycle)
        && shown[j] == Event(NextPeriodId, info.nextPeriodStart.value, Cycle)
  {
    var info := CalculateCycleInfo(p, today);
    var built := BuildEvents(info, today);
    var shown := UpcomingEvents(p, today);
    var ov := Event(NextOvulationId, info.nextOvulation.value, Cycle);
    var pe := Event(NextPeriodId, info.nextPeriodStart.value, Cycle);
    assert ov in multiset(built) && pe in multiset(built);
    assert ov in shown && pe in shown;
    var i :| 0 <= i < |shown| && shown[i] == ov;
    var j :| 0 <= j < |shown| && shown[j] == pe;
    assert ov.date < pe.date;
    assert i < j;
  }

  /** A skincare reminder is shown exactly in the luteal and follicular
      phases. */
  lemma {:induction false} SkincareShownOnlyInLutealOrFollicular(p: Profile, today: Day)
    requires p.cycleLength >= 1 && p.lastPeriodStart.Some?
    ensures var phase := CalculateCycleInfo(p, today).currentPhase;
      var shown := UpcomingEvents(p, today);
      (exists i :: 0 <= i < |shown| && shown[i].kind == Skincare) <==> phase in {Luteal, Follicular}
  {
    var info := CalculateCycleInfo(p, today);
    var built := BuildEvents(info, today);
    var shown := UpcomingEvents(p, today);
    if info.currentPhase in {Luteal, Follicular} {
      var r := SkincareReminder(info.currentPhase, today).value;
      assert r in built;
      assert r in multiset(shown);
      var i :| 0 <= i < |shown| && shown[i] == r;
    }
    if exists i :: 0 <= i < |shown| && shown[i].kind == Skincare {
      var i :| 0 <= i < |shown| && shown[i].kind == Skincare;
      assert shown[i] in multiset(built);
      var k :| 0 <= k < |built| && built[k] == shown[i];
    }
  }
}
