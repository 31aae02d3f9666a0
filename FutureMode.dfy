/**
  The "future mode" endpoints: upcoming calendar events, generating and
  storing a briefing for one event, and listing a user's briefings.
 */
module FutureMode {
  import opened Common
  import opened Firestore
  import Calendar
  import Gemini

  /** The body of a briefing request; `hoursBefore` (default 24) is accepted and not used. */
  datatype BriefingRequest = BriefingRequest(eventId: string, hoursBefore: int)

  datatype BriefingResponse = BriefingResponse(
    id: string,
    eventId: string,
    eventTitle: string,
    eventTime: string,
    briefingContent: string,
    createdAt: Instant)

  datatype UpcomingEventsResponse = UpcomingEventsResponse(events: seq<Calendar.UpcomingEvent>, retrievedAt: Instant)

  /** An endpoint's reply: its body, or an HTTP error status with its detail. */
  datatype HttpResult<T> = Success(body: T) | Failure(status: nat, detail: string)

  const EventNotFound: string := "Event not found"
  const InternalServerError: string := "Internal Server Error"

  // ---------------------------------------------------------------------
  // GET /upcoming-events
  // ---------------------------------------------------------------------

  /**
    Passes `daysAhead` (7 when the query omits it) to the calendar service
    and returns its events unchanged. `utcNow` is the calendar's clock,
    `now` the one stamped on the response.
   */
  method GetUpcomingEvents(calendar: Calendar.CalendarClient, userId: string, daysAhead: int, utcNow: Instant, now: Instant)
    returns (response: UpcomingEventsResponse)
    ensures response.retrievedAt == now
    ensures var items := Calendar.ProviderItems(calendar, Calendar.UpcomingRequest(utcNow, daysAhead));
      |response.events| == |items| &&
      forall i :: 0 <= i < |items| ==> response.events[i] == Calendar.FormatUpcoming(items[i])
  {
    var events := Calendar.GetUpcomingEvents(calendar, userId, daysAhead, utcNow);
    response := UpcomingEventsResponse(events, now);
  }

  // ---------------------------------------------------------------------
  // POST /generate-briefing
  // ---------------------------------------------------------------------

  /** The event as the summarizer gateway receives it: every field present. */
  function EventInfoOf(event: Calendar.EventDetails): Gemini.EventInfo {
    Gemini.EventInfo(Some(event.summary), Some(event.description), Some(event.attendees))
  }

  /**
    The briefing document for a found event: the caller's uid, the request's
    event id, the event's title and `start.dateTime`, the generated content
    and the creation instant. Its `id` is written by the store.
   */
  function BriefingRecord(userId: string, request: BriefingRequest, event: Calendar.EventDetails, content: string, now: Instant): (b: Briefing)
    requires event.start.dateTime.Some?
    ensures b.userId == userId && b.eventId == request.eventId
    ensures b.eventTitle == event.summary && b.eventTime == event.start.dateTime.value
    ensures b.briefingContent == content && b.createdAt == now
  {
    Briefing("", userId, request.eventId, event.summary, event.start.dateTime.value, content, now)
  }

  /**
    Generates and stores a briefing for one event. A missing event (or a
    calendar failure, which reads the same) is a 404 and writes nothing. An
    event whose start has no `dateTime` (an all-day event) fails on the
    missing key, a server error, before anything is written. Otherwise
    exactly one briefing is written and echoed with the id the store
    returned.
   */
  method GenerateBriefing(
    store: FirestoreService, calendar: Calendar.CalendarClient, gemini: Gemini.GeminiService,
    userId: string, request: BriefingRequest, now: Instant, newId: string)
    returns (response: HttpResult<BriefingResponse>)
    modifies store
    ensures store.summaryUpdates == old(store.summaryUpdates)
    ensures Calendar.GetEvent(calendar, userId, request.eventId).None? ==>
      response == Failure(404, EventNotFound) && store.users == old(store.users)
    ensures var event := Calendar.GetEvent(calendar, userId, request.eventId);
      event.Some? && event.value.start.dateTime.None? ==>
        response == Failure(500, InternalServerError) && store.users == old(store.users)
    ensures var event := Calendar.GetEvent(calendar, userId, request.eventId);
      event.Some? && event.value.start.dateTime.Some? ==>
        var content := Gemini.GenerateBriefing(gemini, EventInfoOf(event.value));
        && (store.configured ==>
              store.users == PutBriefing(old(store.users), BriefingRecord(userId, request, event.value, content, now), newId))
        && (!store.configured ==> store.users == old(store.users))
        && response == Success(BriefingResponse(
             if store.configured then newId else MockBriefingId,
             request.eventId, event.value.summary, event.value.start.dateTime.value, content, now))
  {
    var event := Calendar.GetEvent(calendar, userId, request.eventId);
    if event.None? {
      return Failure(404, EventNotFound);
    }
    var details := event.value;
    var content := Gemini.GenerateBriefing(gemini, EventInfoOf(details));
    if details.start.dateTime.None? {
      return Failure(500, InternalServerError);
    }
    var record := BriefingRecord(userId, request, details, content, now);
    var id := store.SaveBriefing(record, newId);
    response := Success(BriefingResponse(id, request.eventId, details.summary, details.start.dateTime.value, content, record.createdAt));
  }

  /**
    A saved briefing is the only document the endpoint adds: the user's
    briefings gain exactly `newId`, with the record's fields, and no other
    document of any user changes.
   */
  lemma BriefingWriteIsSingle(users: Users, record: Briefing, newId: string)
    requires newId !in DocsOf(users, record.userId).briefings
    ensures |DocsOf(PutBriefing(users, record, newId), record.userId).briefings| == |DocsOf(users, record.userId).briefings| + 1
    ensures DocsOf(PutBriefing(users, record, newId), record.userId).briefings[newId] == record.(id := newId)
    ensures DocsOf(PutBriefing(users, record, newId), record.userId).captures == DocsOf(users, record.userId).captures
  {
    var before := DocsOf(users, record.userId).briefings.Keys;
    var after := DocsOf(PutBriefing(users, record, newId), record.userId).briefings.Keys;
    assert after == before + {newId};
    assert |after| == |before| + 1;
  }

  // ---------------------------------------------------------------------
  // GET /briefings
  // ---------------------------------------------------------------------

  /** The list comprehension of `get_briefings`: one response per stored briefing, same order and fields. */
  function BriefingResponses(entries: seq<BriefingEntry>): (r: seq<BriefingResponse>)
    ensures |r| == |entries|
    ensures forall i :: 0 <= i < |entries| ==>
      && r[i].id == entries[i].id && r[i].eventId == entries[i].eventId
      && r[i].eventTitle == entries[i].eventTitle && r[i].eventTime == entries[i].eventTime
      && r[i].briefingContent == entries[i].briefingContent && r[i].createdAt == entries[i].createdAt
  {
    if entries == [] then []
    else
      var e := entries[0];
      [BriefingResponse(e.id, e.eventId, e.eventTitle, e.eventTime, e.briefingContent, e.createdAt)]
        + BriefingResponses(entries[1..])
  }

  /** The response for a stored briefing: every one of its six fields. */
  function ResponseOf(b: Briefing): (r: BriefingResponse)
    ensures r.id == b.id && r.eventId == b.eventId && r.eventTitle == b.eventTitle
    ensures r.eventTime == b.eventTime && r.briefingContent == b.briefingContent && r.createdAt == b.createdAt
  {
    BriefingResponse(b.id, b.eventId, b.eventTitle, b.eventTime, b.briefingContent, b.createdAt)
  }

  /**
    The user's briefings, most recently created first, at most 20; `ids`
    are the documents they were read from.
   */
  method GetBriefings(store: FirestoreService, userId: string) returns (responses: seq<BriefingResponse>, ghost ids: seq<string>)
    ensures !store.configured ==> responses == []
    ensures store.configured ==>
      Ranking.IsTopByRank(ids, store.BriefingsOf(userId).Keys, CreatedAtRank(store.BriefingsOf(userId)), DefaultLimit)
    ensures |responses| == |ids| <= DefaultLimit
    ensures forall i :: 0 <= i < |ids| ==>
      ids[i] in store.BriefingsOf(userId) && responses[i] == ResponseOf(store.BriefingsOf(userId)[ids[i]])
    ensures forall i, j :: 0 <= i < j < |responses| ==> responses[i].createdAt >= responses[j].createdAt
  {
    var entries;
    entries, ids := store.GetUserBriefings(userId, DefaultLimit);
    responses := BriefingResponses(entries);
  }
}
