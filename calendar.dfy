/**
 * The per-user calendar store (`CalendarManager` in `backend/core/calendar.py`) and the
 * calendar tools the assistant calls. The calendar file is the field `file`: it is read once
 * when a manager is made and written back whenever the events change.
 */
module Calendar {
  import opened Wrappers
  import opened Text
  import opened Sorting

  /** A stored event. Dates are `YYYY-MM-DD` and times `HH:MM` strings; `None` is JSON null. */
  datatype Event = Event(id: string, subject: Option<string>, date: string,
                         startTime: Option<string>, endTime: Option<string>, details: Option<string>)

  const DetailsLimit: nat := 75

  /** Details longer than the limit keep their first 75 characters; null stays null. */
  function CutDetails(details: Option<string>): (r: Option<string>)
    ensures r.None? <==> details.None?
    ensures r.Some? ==> |r.value| <= DetailsLimit && r.value <= details.value
    ensures r.Some? && |details.value| <= DetailsLimit ==> r == details
  {
    match details
    case Some(d) => if |d| > DetailsLimit then Some(d[..DetailsLimit]) else details
    case None => None
  }

  /** Python truthiness of an optional string. */
  predicate Truthy(s: Option<string>) {
    s.Some? && s.value != []
  }

  predicate StrLt(a: string, b: string) {
    StrLe(a, b) && a != b
  }

  /** The range test of `get_events`: a falsy bound is ignored. */
  predicate InRange(e: Event, startDate: Option<string>, endDate: Option<string>) {
    !(Truthy(startDate) && StrLt(e.date, startDate.value)) && !(Truthy(endDate) && StrLt(endDate.value, e.date))
  }

  /** An event is in range exactly when its date lies between the bounds it has, both included. */
  lemma InRangeBounds(e: Event, startDate: Option<string>, endDate: Option<string>)
    ensures InRange(e, startDate, endDate) <==>
      (Truthy(startDate) ==> StrLe(startDate.value, e.date)) && (Truthy(endDate) ==> StrLe(e.date, endDate.value))
  {
    if Truthy(startDate) {
      StrLeTotal(startDate.value, e.date);
      if StrLe(startDate.value, e.date) && StrLe(e.date, startDate.value) {
        StrLeAntisym(startDate.value, e.date);
      }
    }
    if Truthy(endDate) {
      StrLeTotal(endDate.value, e.date);
      if StrLe(endDate.value, e.date) && StrLe(e.date, endDate.value) {
        StrLeAntisym(endDate.value, e.date);
      }
    }
  }

  /** The events in range, in stored order. */
  function Between(events: seq<Event>, startDate: Option<string>, endDate: Option<string>): (r: seq<Event>)
    ensures |r| <= |events|
    ensures forall e :: e in r <==> e in events && InRange(e, startDate, endDate)
  {
    if events == [] then []
    else
      var last := events[|events| - 1];
      var front := Between(events[..|events| - 1], startDate, endDate);
      assert events == events[..|events| - 1] + [last];
      if InRange(last, startDate, endDate) then front + [last] else front
  }

  /** The order of the sort key `(date, start_time)`: null start times only meet null ones. */
  predicate StartLe(a: Option<string>, b: Option<string>) {
    match a
    case None => true
    case Some(x) => b.Some? && StrLe(x, b.value)
  }

  predicate EventLe(a: Event, b: Event) {
    StrLe(a.date, b.date) && (a.date == b.date ==> StartLe(a.startTime, b.startTime))
  }

  function EventOrder(): ((Event, Event) -> bool) {
    (a: Event, b: Event) => EventLe(a, b)
  }

  lemma EventOrderIsTotal()
    ensures TotalPreorder(EventOrder())
  {
    forall a: Event, b: Event
      ensures EventOrder()(a, b) || EventOrder()(b, a)
    {
      StrLeTotal(a.date, b.date);
      if a.startTime.Some? && b.startTime.Some? {
        StrLeTotal(a.startTime.value, b.startTime.value);
      }
    }
    forall a: Event, b: Event, c: Event | EventOrder()(a, b) && EventOrder()(b, c)
      ensures EventOrder()(a, c)
    {
      StrLeTrans(a.date, b.date, c.date);
      if a.date == c.date {
        StrLeAntisym(a.date, b.date);
        if a.startTime.Some? {
          StrLeTrans(a.startTime.value, b.startTime.value, c.startTime.value);
        }
      }
    }
  }

  /**
   * Python cannot order a null start time against a string one: sorting raises as soon as
   * two events of one date differ in that way, since any correct sort has to compare some
   * such pair.
   */
  predicate Unorderable(events: seq<Event>) {
    exists i, j | 0 <= i < |events| && 0 <= j < |events| ::
      events[i].date == events[j].date && events[i].startTime.None? && events[j].startTime.Some?
  }

  const SortError: string := "'<' not supported between instances of 'NoneType' and 'str'"

  /**
   * `get_events`: without bounds the stored list in stored order; with a bound the events in
   * range sorted by date and start time (stably, as `sorted` does), or the sort's TypeError.
   */
  function EventsIn(events: seq<Event>, startDate: Option<string>, endDate: Option<string>): (r: Result<seq<Event>, string>)
    ensures !Truthy(startDate) && !Truthy(endDate) ==> r == Ok(events)
    ensures (Truthy(startDate) || Truthy(endDate)) ==>
      (r.Err? <==> Unorderable(Between(events, startDate, endDate)))
    ensures (Truthy(startDate) || Truthy(endDate)) && r.Ok? ==>
      SortedBy(r.value, EventOrder()) &&
      multiset(r.value) == multiset(Between(events, startDate, endDate)) &&
      (forall e :: e in r.value <==> e in events && InRange(e, startDate, endDate)) &&
      (forall y :: Ties(r.value, y, EventOrder()) == Ties(Between(events, startDate, endDate), y, EventOrder()))
  {
    if !Truthy(startDate) && !Truthy(endDate) then Ok(events)
    else
      var kept := Between(events, startDate, endDate);
      if Unorderable(kept) then Err(SortError)
      else
        EventOrderIsTotal();
        var sorted := SortBy(kept, EventOrder());
        assert forall e :: e in sorted <==> e in multiset(kept);
        assert forall y :: Ties(sorted, y, EventOrder()) == Ties(kept, y, EventOrder()) by {
          forall y
            ensures Ties(sorted, y, EventOrder()) == Ties(kept, y, EventOrder())
          {
            SortByStable(kept, y, EventOrder());
          }
        }
        Ok(sorted)
  }

  /** The fields an update supplies: `Keep` for a key that is not passed. */
  datatype Change<T> = Keep | Set(value: T)

  datatype Changes = Changes(subject: Change<Option<string>>, date: Change<string>,
                             startTime: Change<Option<string>>, endTime: Change<Option<string>>,
                             details: Change<Option<string>>)

  function Pick<T>(c: Change<T>, current: T): T {
    match c
    case Keep => current
    case Set(v) => v
  }

  /** The event with the supplied keys overwritten (details cut to the limit). */
  function Apply(e: Event, c: Changes): (r: Event)
    ensures r.id == e.id
    ensures r.subject == (if c.subject.Set? then c.subject.value else e.subject)
    ensures r.date == (if c.date.Set? then c.date.value else e.date)
    ensures r.startTime == (if c.startTime.Set? then c.startTime.value else e.startTime)
    ensures r.endTime == (if c.endTime.Set? then c.endTime.value else e.endTime)
    ensures r.details == (if c.details.Set? then CutDetails(c.details.value) else e.details)
  {
    Event(e.id, Pick(c.subject, e.subject), Pick(c.date, e.date), Pick(c.startTime, e.startTime),
          Pick(c.endTime, e.endTime), if c.details.Set? then CutDetails(c.details.value) else e.details)
  }

  /** The position of the first event with the id. */
  function FirstWithId(events: seq<Event>, id: string): (r: Option<nat>)
    ensures r.Some? ==> r.value < |events| && events[r.value].id == id &&
                        (forall k | 0 <= k < r.value :: events[k].id != id)
    ensures r.None? ==> forall k | 0 <= k < |events| :: events[k].id != id
  {
    if events == [] then None
    else if events[0].id == id then Some(0)
    else match FirstWithId(events[1..], id)
      case None => None
      case Some(k) => Some(k + 1)
  }

  /** The events whose id differs from `id`, in stored order. */
  function WithoutId(events: seq<Event>, id: string): (r: seq<Event>)
    ensures |r| <= |events|
    ensures forall e :: e in r <==> e in events && e.id != id
  {
    if events == [] then []
    else (if events[0].id != id then [events[0]] else []) + WithoutId(events[1..], id)
  }

  /** Deleting drops the count exactly when some event carries the id. */
  lemma {:induction false} WithoutIdShrinks(events: seq<Event>, id: string)
    ensures |WithoutId(events, id)| < |events| <==> exists k | 0 <= k < |events| :: events[k].id == id
  {
    if events != [] {
      WithoutIdShrinks(events[1..], id);
      if events[0].id != id {
        assert forall k | 1 <= k < |events| :: events[k] == events[1..][k - 1];
        if exists k | 0 <= k < |events| :: events[k].id == id {
          var k :| 0 <= k < |events| && events[k].id == id;
          assert events[1..][k - 1].id == id;
        }
      }
    }
  }

  /** Deleting again removes nothing more. */
  lemma {:induction false} WithoutIdIdempotent(events: seq<Event>, id: string)
    ensures WithoutId(WithoutId(events, id), id) == WithoutId(events, id)
  {
    if events != [] {
      WithoutIdIdempotent(events[1..], id);
      var rest := WithoutId(events[1..], id);
      if events[0].id != id {
        var w := [events[0]] + rest;
        assert w[0] == events[0] && w[1..] == rest;
      } else {
        assert [] + rest == rest;
      }
    }
  }

  /** One user's calendar: the events in memory and the file they are saved to. */
  class CalendarManager {
    const userId: string
    var events: seq<Event>
    var file: seq<Event>

    /** `_load_events`: a missing calendar file is read as `[]`. */
    constructor(userId: string, stored: seq<Event>)
      ensures this.userId == userId && events == stored && file == stored
    {
      this.userId := userId;
      events := stored;
      file := stored;
    }

    method GetEvents(startDate: Option<string>, endDate: Option<string>) returns (r: Result<seq<Event>, string>)
      ensures r == EventsIn(events, startDate, endDate)
    {
      if !Truthy(startDate) && !Truthy(endDate) {
        return Ok(events);
      }
      var filtered := [];
      for i := 0 to |events|
        invariant filtered == Between(events[..i], startDate, endDate)
      {
        assert events[..i + 1][..i] == events[..i];
        var event := events[i];
        if Truthy(startDate) && StrLt(event.date, startDate.value) {
          continue;
        }
        if Truthy(endDate) && StrLt(endDate.value, event.date) {
          continue;
        }
        filtered := filtered + [event];
      }
      assert events[..|events|] == events;
      if Unorderable(filtered) {
        return Err(SortError);
      }
      EventOrderIsTotal();
      r := Ok(SortBy(filtered, EventOrder()));
    }

    /** `create_event`: one new event at the end, saved; the id is the caller's fresh UUID. */
    method CreateEvent(id: string, subject: Option<string>, date: string, startTime: Option<string>,
                       endTime: Option<string>, details: Option<string>) returns (e: Event)
      modifies this
      ensures e == Event(id, subject, date, startTime, endTime, CutDetails(details))
      ensures events == old(events) + [e] && file == events
    {
      e := Event(id, subject, date, startTime, endTime, CutDetails(details));
      events := events + [e];
      file := events;
    }

    /**
     * `update_event`: the first event with the id gets the supplied keys and is saved and
     * returned; an unknown id is an error and nothing changes.
     */
    method UpdateEvent(eventId: string, changes: Changes) returns (r: Result<Event, string>)
      modifies this
      ensures match FirstWithId(old(events), eventId)
        case None => r == Err("Event " + eventId + " not found") && events == old(events) && file == old(file)
        case Some(i) => events == old(events)[i := Apply(old(events)[i], changes)] && r == Ok(events[i]) && file == events
    {
      for i := 0 to |events|
        invariant forall k | 0 <= k < i :: events[k].id != eventId
      {
        if events[i].id == eventId {
          events := events[i := Apply(events[i], changes)];
          file := events;
          return Ok(events[i]);
        }
      }
      return Err("Event " + eventId + " not found");
    }

    /** `delete_event`: every event with the id goes; the file is saved only when one did. */
    method DeleteEvent(eventId: string) returns (deleted: bool)
      modifies this
      ensures events == WithoutId(old(events), eventId)
      ensures deleted <==> exists k | 0 <= k < |old(events)| :: old(events)[k].id == eventId
      ensures file == if deleted then events else old(file)
    {
      var initial := |events|;
      WithoutIdShrinks(events, eventId);
      events := WithoutId(events, eventId);
      if |events| < initial {
        file := events;
        return true;
      }
      return false;
    }
  }

  // ---------------------------------------------------------------------------------------
  // The calendar tools
  // ---------------------------------------------------------------------------------------

  /** `{"events": [...], "count": N}` */
  datatype Found = Found(events: seq<Event>, count: nat)

  predicate Mentions(e: Event, q: string)
    requires e.subject.Some?
  {
    Contains(Lower(e.subject.value), Lower(q)) || (Truthy(e.details) && Contains(Lower(e.details.value), Lower(q)))
  }

  function Matching(events: seq<Event>, q: string): (r: seq<Event>)
    requires forall k | 0 <= k < |events| :: events[k].subject.Some?
    ensures |r| <= |events|
    ensures forall e :: e in r <==> e in events && Mentions(e, q)
  {
    if events == [] then []
    else (if Mentions(events[0], q) then [events[0]] else []) + Matching(events[1..], q)
  }

  const NoLower: string := "'NoneType' object has no attribute 'lower'"

  /**
   * The query step of `calendar_search`: a truthy query keeps the events whose subject or
   * details contain it ignoring case; a null subject makes `.lower()` raise.
   */
  function Search(events: seq<Event>, query: Option<string>): (r: Result<Found, string>)
    ensures r.Ok? ==> r.value.count == |r.value.events|
    ensures !Truthy(query) ==> r == Ok(Found(events, |events|))
    ensures Truthy(query) ==>
      (r.Err? <==> exists k | 0 <= k < |events| :: events[k].subject.None?)
    ensures Truthy(query) && r.Ok? ==>
      forall e :: e in r.value.events <==> e in events && Mentions(e, query.value)
  {
    if !Truthy(query) then Ok(Found(events, |events|))
    else if exists k | 0 <= k < |events| :: events[k].subject.None? then Err(NoLower)
    else
      var kept := Matching(events, query.value);
      Ok(Found(kept, |kept|))
  }

  /** `calendar_search`: the manager's `get_events`, then the query. */
  method CalendarSearch(m: CalendarManager, startDate: Option<string>, endDate: Option<string>, query: Option<string>)
    returns (r: Result<Found, string>)
    ensures r == match EventsIn(m.events, startDate, endDate)
      case Err(e) => Err(e)
      case Ok(events) => Search(events, query)
  {
    var got := m.GetEvents(startDate, endDate);
    if got.Err? {
      return Err(got.error);
    }
    r := Search(got.value, query);
  }

  /** `calendar_update` passes on only the fields that are truthy. */
  function Forwarded(subject: Option<string>, date: Option<string>, startTime: Option<string>,
                     endTime: Option<string>, details: Option<string>): (c: Changes)
    ensures c.subject.Set? <==> Truthy(subject)
    ensures c.date.Set? <==> Truthy(date)
    ensures c.startTime.Set? <==> Truthy(startTime)
    ensures c.endTime.Set? <==> Truthy(endTime)
    ensures c.details.Set? <==> Truthy(details)
  {
    Changes(if Truthy(subject) then Set(subject) else Keep,
            if Truthy(date) then Set(date.value) else Keep,
            if Truthy(startTime) then Set(startTime) else Keep,
            if Truthy(endTime) then Set(endTime) else Keep,
            if Truthy(details) then Set(details) else Keep)
  }

  /** Through `calendar_update` a field can be changed but never emptied or nulled. */
  lemma UpdateNeverClears(e: Event, subject: Option<string>, date: Option<string>, startTime: Option<string>,
                          endTime: Option<string>, details: Option<string>)
    ensures var r := Apply(e, Forwarded(subject, date, startTime, endTime, details));
      (r.subject == e.subject || Truthy(r.subject)) &&
      (r.date == e.date || r.date != []) &&
      (r.startTime == e.startTime || Truthy(r.startTime)) &&
      (r.endTime == e.endTime || Truthy(r.endTime)) &&
      (r.details == e.details || Truthy(r.details))
  {
    var c := Forwarded(subject, date, startTime, endTime, details);
    if c.details.Set? {
      var d := details.value;
      assert CutDetails(details) == Some(if |d| > DetailsLimit then d[..DetailsLimit] else d);
    }
  }

  method CalendarUpdate(m: CalendarManager, eventId: string, subject: Option<string>, date: Option<string>,
                        startTime: Option<string>, endTime: Option<string>, details: Option<string>)
    returns (r: Result<Event, string>)
    modifies m
    ensures var c := Forwarded(subject, date, startTime, endTime, details);
      match FirstWithId(old(m.events), eventId)
      case None => r == Err("Event " + eventId + " not found") && m.events == old(m.events) && m.file == old(m.file)
      case Some(i) => m.events == old(m.events)[i := Apply(old(m.events)[i], c)] && r == Ok(m.events[i]) && m.file == m.events
  {
    r := m.UpdateEvent(eventId, Forwarded(subject, date, startTime, endTime, details));
  }

  /** `{"success": ..., "message": ...}` */
  datatype Deleted = Deleted(success: bool, message: string)

  method CalendarDelete(m: CalendarManager, eventId: string) returns (r: Deleted)
    modifies m
    ensures m.events == WithoutId(old(m.events), eventId)
    ensures r.success <==> exists k | 0 <= k < |old(m.events)| :: old(m.events)[k].id == eventId
    ensures r.message == "Event " + eventId + (if r.success then " deleted successfully" else " not found")
  {
    var success := m.DeleteEvent(eventId);
    if success {
      return Deleted(true, "Event " + eventId + " deleted successfully");
    }
    return Deleted(false, "Event " + eventId + " not found");
  }
}
