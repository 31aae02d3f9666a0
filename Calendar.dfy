/**
  The calendar gateway: asks the provider for the events of a time window
  and reshapes each item into the record the endpoints return. The provider
  is a pair of functions (list and get) that answer a request or report an
  HTTP error; a service without credentials has no provider at all.
 */
module Calendar {
  import opened Common

  /** An event's `start` or `end`: a precise `dateTime`, or a `date` for an all-day event. */
  datatype EventTime = EventTime(dateTime: Option<string>, date: Option<string>)

  /** An attendee entry; only its `email` matters to this backend. */
  datatype Attendee = Attendee(email: Option<string>)

  /** An event item as the provider sends it; optional keys are `Option`s. */
  datatype ProviderEvent = ProviderEvent(
    id: string,
    summary: Option<string>,
    description: Option<string>,
    start: EventTime,
    end: EventTime,
    attendees: Option<seq<Attendee>>,
    location: Option<string>,
    created: Option<string>,
    updated: Option<string>)

  /**
    The parameters of an `events().list` call on the primary calendar. The
    remaining ones are the same in every call: single instances expanded,
    ordered by start time.
   */
  datatype ListRequest = ListRequest(timeMin: Instant, timeMax: Instant, maxResults: nat)

  /** The provider's answer to a list call: the body's `items` key, which may be missing, or an HTTP error. */
  datatype ListReply = Listed(items: Option<seq<ProviderEvent>>) | ListHttpError(message: string)

  /** The provider's answer to a get call. */
  datatype GetReply = Found(event: ProviderEvent) | GetHttpError(message: string)

  /** The calendar service: absent when no credentials were configured or initialisation failed. */
  datatype CalendarClient =
    | NoService
    | Service(list: ListRequest -> ListReply, get: string -> GetReply)

  /** An event as `get_upcoming_events` returns it. */
  datatype UpcomingEvent = UpcomingEvent(
    id: string,
    summary: string,
    description: string,
    start: Option<string>,
    end: Option<string>,
    attendees: seq<Attendee>,
    location: string,
    created: string,
    updated: string)

  /** An event as `get_event` returns it: `start` and `end` are passed on whole. */
  datatype EventDetails = EventDetails(
    id: string,
    summary: string,
    description: string,
    start: EventTime,
    end: EventTime,
    attendees: seq<Attendee>,
    location: string,
    created: string,
    updated: string)

  /** An event as `get_events_for_briefing` returns it. */
  datatype BriefingCandidate = BriefingCandidate(
    id: string,
    summary: string,
    description: string,
    start: EventTime,
    end: EventTime,
    attendees: seq<Attendee>,
    location: string)

  const NoTitle: string := "No title"
  const UpcomingMaxResults: nat := 50
  const BriefingMaxResults: nat := 20

  /** The instant an event starts or ends: its `dateTime`, or its `date` when it has none. */
  function When(t: EventTime): (r: Option<string>)
    ensures t.dateTime.Some? ==> r == t.dateTime
    ensures t.dateTime.None? ==> r == t.date
    ensures r.None? <==> t.dateTime.None? && t.date.None?
  {
    if t.dateTime.Some? then t.dateTime else t.date
  }

  /** The upcoming-events record of a provider item, with every missing field defaulted. */
  function FormatUpcoming(e: ProviderEvent): (r: UpcomingEvent)
    ensures r.id == e.id
    ensures r.summary == (if e.summary.Some? then e.summary.value else NoTitle)
    ensures r.description == (if e.description.Some? then e.description.value else "")
    ensures r.attendees == (if e.attendees.Some? then e.attendees.value else [])
    ensures r.location == (if e.location.Some? then e.location.value else "")
    ensures r.created == (if e.created.Some? then e.created.value else "")
    ensures r.updated == (if e.updated.Some? then e.updated.value else "")
    ensures r.start == When(e.start) && r.end == When(e.end)
  {
    UpcomingEvent(
      e.id, e.summary.GetOr(NoTitle), e.description.GetOr(""),
      When(e.start), When(e.end), e.attendees.GetOr([]),
      e.location.GetOr(""), e.created.GetOr(""), e.updated.GetOr(""))
  }

  /** The single-event record of a provider item. */
  function ToDetails(e: ProviderEvent): (r: EventDetails)
    ensures r.id == e.id && r.start == e.start && r.end == e.end
    ensures r.summary == (if e.summary.Some? then e.summary.value else NoTitle)
    ensures r.description == (if e.description.Some? then e.description.value else "")
    ensures r.attendees == (if e.attendees.Some? then e.attendees.value else [])
    ensures r.location == (if e.location.Some? then e.location.value else "")
    ensures r.created == (if e.created.Some? then e.created.value else "")
    ensures r.updated == (if e.updated.Some? then e.updated.value else "")
  {
    EventDetails(
      e.id, e.summary.GetOr(NoTitle), e.description.GetOr(""),
      e.start, e.end, e.attendees.GetOr([]),
      e.location.GetOr(""), e.created.GetOr(""), e.updated.GetOr(""))
  }

  /** "Worth briefing": the item has at least one attendee or a non-empty description. */
  predicate WorthBriefing(e: ProviderEvent) {
    (e.attendees.Some? && e.attendees.value != []) || (e.description.Some? && e.description.value != "")
  }

  /** The briefing-candidate record of a provider item, with every missing field defaulted. */
  function ToCandidate(e: ProviderEvent): (r: BriefingCandidate)
    ensures r.id == e.id && r.start == e.start && r.end == e.end
    ensures r.summary == (if e.summary.Some? then e.summary.value else NoTitle)
    ensures r.description == (if e.description.Some? then e.description.value else "")
    ensures r.attendees == (if e.attendees.Some? then e.attendees.value else [])
    ensures r.location == (if e.location.Some? then e.location.value else "")
  {
    BriefingCandidate(
      e.id, e.summary.GetOr(NoTitle), e.description.GetOr(""),
      e.start, e.end, e.attendees.GetOr([]), e.location.GetOr(""))
  }

  /** The candidates of the worth-briefing items of `items`, in their order. */
  function Candidates(items: seq<ProviderEvent>): (r: seq<BriefingCandidate>)
    ensures |r| <= |items|
  {
    if items == [] then []
    else
      var last := items[|items| - 1];
      Candidates(items[..|items| - 1]) + (if WorthBriefing(last) then [ToCandidate(last)] else [])
  }

  /** The list call of `get_upcoming_events`: from `now` to `daysAhead` days later, at most 50 items. */
  function UpcomingRequest(now: Instant, daysAhead: int): ListRequest {
    ListRequest(now, now + daysAhead * OneDay, UpcomingMaxResults)
  }

  /** The list call of `get_events_for_briefing`: from `now` to `hoursAhead` hours later, at most 20 items. */
  function BriefingRequest(now: Instant, hoursAhead: int): ListRequest {
    ListRequest(now, now + hoursAhead * OneHour, BriefingMaxResults)
  }

  /**
    The items a list call yields: none without a service, none on an HTTP
    error, none when the reply has no `items`, otherwise the reply's items.
   */
  function ProviderItems(client: CalendarClient, request: ListRequest): (r: seq<ProviderEvent>)
    ensures client.NoService? ==> r == []
    ensures client.Service? && client.list(request).ListHttpError? ==> r == []
    ensures client.Service? && client.list(request).Listed? && client.list(request).items.Some? ==>
      r == client.list(request).items.value
    ensures client.Service? && client.list(request).Listed? && client.list(request).items.None? ==> r == []
  {
    match client
    case NoService => []
    case Service(list, _) =>
      match list(request)
      case ListHttpError(_) => []
      case Listed(items) => items.GetOr([])
  }

  /**
    The events of the next `daysAhead` days: one formatted record per
    provider item, in the provider's order; nothing without a service or on
    an HTTP error. `userId` is not used: the calendar read is the service
    account's primary calendar.
   */
  method GetUpcomingEvents(client: CalendarClient, userId: string, daysAhead: int, now: Instant)
    returns (events: seq<UpcomingEvent>)
    ensures var items := ProviderItems(client, UpcomingRequest(now, daysAhead));
      |events| == |items| && forall i :: 0 <= i < |items| ==> events[i] == FormatUpcoming(items[i])
    ensures client.NoService? ==> events == []
  {
    if client.NoService? {
      return [];
    }
    var reply := client.list(UpcomingRequest(now, daysAhead));
    if reply.ListHttpError? {
      return [];
    }
    var items := reply.items.GetOr([]);
    events := [];
    for i := 0 to |items|
      invariant |events| == i
      invariant forall k :: 0 <= k < i ==> events[k] == FormatUpcoming(items[k])
    {
      events := events + [FormatUpcoming(items[i])];
    }
  }

  /** One event by id: absent without a service or on an HTTP error (including "not found"). */
  function GetEvent(client: CalendarClient, userId: string, eventId: string): (r: Option<EventDetails>)
    ensures client.NoService? ==> r.None?
    ensures client.Service? ==> (r.Some? <==> client.get(eventId).Found?)
    ensures r.Some? ==> r.value == ToDetails(client.get(eventId).event) && r.value.id == client.get(eventId).event.id
  {
    match client
    case NoService => None
    case Service(_, get) =>
      match get(eventId)
      case GetHttpError(_) => None
      case Found(e) => Some(ToDetails(e))
  }

  /**
    The events of the next `hoursAhead` hours worth a briefing, in the
    provider's order; nothing without a service or on an HTTP error.
   */
  method GetEventsForBriefing(client: CalendarClient, userId: string, hoursAhead: int, now: Instant)
    returns (events: seq<BriefingCandidate>)
    ensures events == Candidates(ProviderItems(client, BriefingRequest(now, hoursAhead)))
    ensures client.NoService? ==> events == []
  {
    if client.NoService? {
      return [];
    }
    var reply := client.list(BriefingRequest(now, hoursAhead));
    if reply.ListHttpError? {
      return [];
    }
    var items := reply.items.GetOr([]);
    events := [];
    for i := 0 to |items|
      invariant events == Candidates(items[..i])
    {
      assert items[..i + 1][..i] == items[..i];
      if WorthBriefing(items[i]) {
        events := events + [ToCandidate(items[i])];
      }
    }
    assert items[..|items|] == items;
  }

  /** Filtering distributes over concatenation: the kept items of `a + b` are those of `a`, then those of `b`. */
  lemma {:induction false} CandidatesAppend(a: seq<ProviderEvent>, b: seq<ProviderEvent>)
    ensures Candidates(a + b) == Candidates(a) + Candidates(b)
    decreases |b|
  {
    if b == [] {
      assert a + b == a;
    } else {
      var b' := b[..|b| - 1];
      assert (a + b)[..|a + b| - 1] == a + b';
      assert (a + b)[|a + b| - 1] == b[|b| - 1];
      CandidatesAppend(a, b');
    }
  }

  /**
    The filter keeps exactly the worth-briefing items: every kept record
    comes from such an item, and every such item is kept.
   */
  lemma {:induction false} CandidatesExact(items: seq<ProviderEvent>)
    ensures forall e :: e in items && WorthBriefing(e) ==> ToCandidate(e) in Candidates(items)
    ensures forall c :: c in Candidates(items) ==> exists e :: e in items && WorthBriefing(e) && c == ToCandidate(e)
    decreases |items|
  {
    if items != [] {
      var init := items[..|items| - 1];
      var last := items[|items| - 1];
      CandidatesExact(init);
      assert items == init + [last];
      forall e | e in items && WorthBriefing(e) ensures ToCandidate(e) in Candidates(items) {
        if e != last {
          assert e in init;
        }
      }
      forall c | c in Candidates(items) ensures exists e :: e in items && WorthBriefing(e) && c == ToCandidate(e) {
        if c in Candidates(init) {
          var e :| e in init && WorthBriefing(e) && c == ToCandidate(e);
          assert e in items;
        } else {
          assert WorthBriefing(last) && c == ToCandidate(last);
        }
      }
    }
  }

  /** A provider list in which no item has attendees or a description yields no briefing candidates. */
  lemma {:induction false} NothingWorthBriefing(items: seq<ProviderEvent>)
    requires forall i :: 0 <= i < |items| ==> !WorthBriefing(items[i])
    ensures Candidates(items) == []
    decreases |items|
  {
    if items != [] {
      NothingWorthBriefing(items[..|items| - 1]);
    }
  }
}
