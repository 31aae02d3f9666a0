/**
  The document store of the backend: one document per user, each owning a
  sub-collection of captures and a sub-collection of briefings, keyed by
  generated ids. The database client is replaced by an in-memory map; a
  service built without a configured project runs in the degraded mode that
  returns mock ids and empty lists.
 */
module Firestore {
  import opened Common
  import opened Ranking

  /**
    A capture document. `kind` is the request's `type` ("url", "text",
    "voice" or anything else the client sent); `id` is written by
    `SaveCapture`; `summary` is absent until a capture is processed.
   */
  datatype Capture = Capture(
    id: string,
    userId: string,
    kind: string,
    content: string,
    metadata: map<string, string>,
    timestamp: Instant,
    processed: bool,
    summary: Option<string>)

  /** A briefing document; `eventTime` is the event's `start.dateTime` text. */
  datatype Briefing = Briefing(
    id: string,
    userId: string,
    eventId: string,
    eventTitle: string,
    eventTime: string,
    briefingContent: string,
    createdAt: Instant)

  /** The two sub-collections of one user document: document id to document. */
  datatype UserDocs = UserDocs(captures: map<string, Capture>, briefings: map<string, Briefing>)

  /** The `users` collection: user id to that user's sub-collections. */
  type Users = map<string, UserDocs>

  /** The record `get_processed_captures` builds from each document it reads. */
  datatype DigestEntry = DigestEntry(
    id: string,
    kind: string,
    content: string,
    timestamp: Instant,
    processed: bool,
    summary: string)

  /** The record `get_user_briefings` builds from each document it reads. */
  datatype BriefingEntry = BriefingEntry(
    id: string,
    eventId: string,
    eventTitle: string,
    eventTime: string,
    briefingContent: string,
    createdAt: Instant)

  /** One call of `update_capture_summary`: the capture id and the summary it was given. */
  datatype SummaryUpdate = SummaryUpdate(captureId: string, summary: string)

  const MockCaptureId: string := "mock-capture-id"
  const MockBriefingId: string := "mock-briefing-id"
  const DefaultLimit: nat := 20

  /** The sub-collections of `userId`; a user with no document has empty ones. */
  function DocsOf(users: Users, userId: string): UserDocs {
    if userId in users then users[userId] else UserDocs(map[], map[])
  }

  /** The store after `set` writes `data` as capture `newId` of its owner (creating or replacing it). */
  function PutCapture(users: Users, data: Capture, newId: string): (r: Users)
    ensures r.Keys == users.Keys + {data.userId}
    ensures newId in DocsOf(r, data.userId).captures
    ensures DocsOf(r, data.userId).captures[newId] == data.(id := newId)
    ensures forall k :: k != newId && k in DocsOf(users, data.userId).captures ==>
      k in DocsOf(r, data.userId).captures && DocsOf(r, data.userId).captures[k] == DocsOf(users, data.userId).captures[k]
    ensures DocsOf(r, data.userId).captures.Keys == DocsOf(users, data.userId).captures.Keys + {newId}
    ensures DocsOf(r, data.userId).briefings == DocsOf(users, data.userId).briefings
    ensures forall u :: u != data.userId ==> DocsOf(r, u) == DocsOf(users, u)
  {
    var docs := DocsOf(users, data.userId);
    users[data.userId := docs.(captures := docs.captures[newId := data.(id := newId)])]
  }

  /** The store after `set` writes `data` as briefing `newId` of its owner (creating or replacing it). */
  function PutBriefing(users: Users, data: Briefing, newId: string): (r: Users)
    ensures r.Keys == users.Keys + {data.userId}
    ensures newId in DocsOf(r, data.userId).briefings
    ensures DocsOf(r, data.userId).briefings[newId] == data.(id := newId)
    ensures forall k :: k != newId && k in DocsOf(users, data.userId).briefings ==>
      k in DocsOf(r, data.userId).briefings && DocsOf(r, data.userId).briefings[k] == DocsOf(users, data.userId).briefings[k]
    ensures DocsOf(r, data.userId).briefings.Keys == DocsOf(users, data.userId).briefings.Keys + {newId}
    ensures DocsOf(r, data.userId).captures == DocsOf(users, data.userId).captures
    ensures forall u :: u != data.userId ==> DocsOf(r, u) == DocsOf(users, u)
  {
    var docs := DocsOf(users, data.userId);
    users[data.userId := docs.(briefings := docs.briefings[newId := data.(id := newId)])]
  }

  /** The ids of the documents that pass the `processed == True` filter. */
  function ProcessedIds(captures: map<string, Capture>): (r: set<string>)
    ensures forall k :: k in r <==> k in captures && captures[k].processed
  {
    set k | k in captures && captures[k].processed
  }

  /** The ordering field `timestamp` of every capture document. */
  function TimestampRank(captures: map<string, Capture>): (r: map<string, int>)
    ensures r.Keys == captures.Keys
    ensures forall k :: k in captures ==> r[k] == captures[k].timestamp
  {
    map k | k in captures :: captures[k].timestamp
  }

  /** The ordering field `created_at` of every briefing document. */
  function CreatedAtRank(briefings: map<string, Briefing>): (r: map<string, int>)
    ensures r.Keys == briefings.Keys
    ensures forall k :: k in briefings ==> r[k] == briefings[k].createdAt
  {
    map k | k in briefings :: briefings[k].createdAt
  }

  /** The digest record of a capture document: `summary` becomes "" when the document has none. */
  function ToDigestEntry(c: Capture): (e: DigestEntry)
    ensures e.id == c.id && e.kind == c.kind && e.content == c.content
    ensures e.timestamp == c.timestamp && e.processed == c.processed
    ensures c.summary.None? ==> e.summary == ""
    ensures c.summary.Some? ==> e.summary == c.summary.value
  {
    DigestEntry(c.id, c.kind, c.content, c.timestamp, c.processed, c.summary.GetOr(""))
  }

  function ToBriefingEntry(b: Briefing): BriefingEntry {
    BriefingEntry(b.id, b.eventId, b.eventTitle, b.eventTime, b.briefingContent, b.createdAt)
  }

  /**
    `c` is one record of the cross-user scan for unprocessed captures: the
    document `c.id` of user `c.userId`, unprocessed and stamped at or after
    `cutoff`, with its `id` and `user_id` fields overwritten by the document
    id and the owning user id.
   */
  ghost predicate IsPending(users: Users, cutoff: Instant, c: Capture) {
    && c.userId in users
    && c.id in users[c.userId].captures
    && var d := users[c.userId].captures[c.id];
       !d.processed && d.timestamp >= cutoff && c == d.(id := c.id, userId := c.userId)
  }

  /** Every record of the scan is unprocessed, recent enough, and carries no summary field of its own making. */
  lemma PendingIsUnprocessedAndRecent(users: Users, cutoff: Instant, c: Capture)
    requires IsPending(users, cutoff, c)
    ensures !c.processed && c.timestamp >= cutoff
    ensures c.id in DocsOf(users, c.userId).captures
    ensures c.content == DocsOf(users, c.userId).captures[c.id].content
  {
  }

  /**
    A capture saved unprocessed is pending for every later scan whose cutoff
    is at or before its timestamp, and it is not among its owner's processed
    captures. The intended scan finds every pending capture; the scan as
    written finds it only when its owner's user document exists.
   */
  lemma SavedCaptureIsPending(users: Users, data: Capture, newId: string, cutoff: Instant)
    requires !data.processed && data.timestamp >= cutoff
    ensures IsPending(PutCapture(users, data, newId), cutoff, data.(id := newId))
    ensures newId !in ProcessedIds(DocsOf(PutCapture(users, data, newId), data.userId).captures)
  {
    var r := PutCapture(users, data, newId);
    assert DocsOf(r, data.userId) == r[data.userId];
  }

  /** Entries read in creation order, newest first, carry non-increasing `createdAt`. */
  lemma BriefingEntriesOrdered(docs: map<string, Briefing>, picked: seq<string>, entries: seq<BriefingEntry>)
    requires AllRanked(picked, CreatedAtRank(docs)) && SortedDesc(picked, CreatedAtRank(docs))
    requires |entries| == |picked|
    requires forall k :: 0 <= k < |picked| ==> entries[k] == ToBriefingEntry(docs[picked[k]])
    ensures forall i, j :: 0 <= i < j < |entries| ==> entries[i].createdAt >= entries[j].createdAt
  {
    var rank := CreatedAtRank(docs);
    forall i, j | 0 <= i < j < |entries| ensures entries[i].createdAt >= entries[j].createdAt {
      assert rank[picked[i]] >= rank[picked[j]];
    }
  }

  class FirestoreService {
    /** Whether a project is configured; without one the service has no database. */
    const configured: bool
    /**
      The user documents `users/{uid}` that exist. Writing a document of a
      sub-collection does not create its parent, and nothing in the backend
      writes a user document, so this set never changes.
     */
    const userDocuments: set<string>
    /** The database contents: the sub-collections under each user id. */
    var users: Users
    /** Every `UpdateCaptureSummary` call received, in order; the method itself stores nothing. */
    ghost var summaryUpdates: seq<SummaryUpdate>

    constructor (configured: bool, userDocuments: set<string>, users: Users)
      ensures this.configured == configured && this.userDocuments == userDocuments
      ensures this.users == users && summaryUpdates == []
    {
      this.configured := configured;
      this.userDocuments := userDocuments;
      this.users := users;
      summaryUpdates := [];
    }

    function CapturesOf(userId: string): map<string, Capture>
      reads this
    {
      DocsOf(users, userId).captures
    }

    function BriefingsOf(userId: string): map<string, Briefing>
      reads this
    {
      DocsOf(users, userId).briefings
    }

    /** Writes `data` under its owner as capture `newId` (the fresh uuid) and returns that id. */
    method SaveCapture(data: Capture, newId: string) returns (id: string)
      modifies this
      ensures summaryUpdates == old(summaryUpdates)
      ensures !configured ==> id == MockCaptureId && users == old(users)
      ensures configured ==> id == newId && users == PutCapture(old(users), data, newId)
    {
      if !configured {
        return MockCaptureId;
      }
      id := newId;
      users := PutCapture(users, data, id);
    }

    /**
      The processed captures of `userId`, newest first, at most `limit`;
      `ids` are the documents they were read from.
     */
    method GetProcessedCaptures(userId: string, limit: nat) returns (captures: seq<DigestEntry>, ghost ids: seq<string>)
      ensures !configured ==> captures == [] && ids == []
      ensures configured ==> IsTopByRank(ids, ProcessedIds(CapturesOf(userId)), TimestampRank(CapturesOf(userId)), limit)
      ensures |captures| == |ids| <= limit
      ensures forall i :: 0 <= i < |ids| ==> ids[i] in CapturesOf(userId) && captures[i] == ToDigestEntry(CapturesOf(userId)[ids[i]])
      ensures forall i :: 0 <= i < |captures| ==> captures[i].processed
      ensures forall i, j :: 0 <= i < j < |captures| ==> captures[i].timestamp >= captures[j].timestamp
    {
      if !configured {
        return [], [];
      }
      var docs := CapturesOf(userId);
      var rank := TimestampRank(docs);
      var picked := TopByRank(ProcessedIds(docs), rank, limit);
      ids := picked;
      captures := [];
      for i := 0 to |picked|
        invariant |captures| == i
        invariant forall k :: 0 <= k < i ==> captures[k] == ToDigestEntry(docs[picked[k]])
      {
        captures := captures + [ToDigestEntry(docs[picked[i]])];
      }
      forall i, j | 0 <= i < j < |captures| ensures captures[i].timestamp >= captures[j].timestamp {
        assert rank[picked[i]] >= rank[picked[j]];
      }
    }

    /**
      The scan of the captures of `owners`: every unprocessed capture of one
      of them stamped at or after `cutoff`, each once, tagged with its
      document id and owner.
     */
    method ScanOwners(owners: set<string>, cutoff: Instant) returns (captures: seq<Capture>)
      ensures Distinct(captures)
      ensures forall c :: c in captures <==> IsPending(users, cutoff, c) && c.userId in owners
    {
      captures := [];
      var restUsers := owners;
      while restUsers != {}
        invariant restUsers <= owners
        invariant Distinct(captures)
        invariant forall c :: c in captures <==> IsPending(users, cutoff, c) && c.userId in owners && c.userId !in restUsers
        decreases |restUsers|
      {
        var u :| u in restUsers;
        var docs := CapturesOf(u);
        var found: seq<Capture> := [];
        var restDocs := docs.Keys;
        while restDocs != {}
          invariant restDocs <= docs.Keys
          invariant Distinct(found)
          invariant forall c :: c in found <==> IsPending(users, cutoff, c) && c.userId == u && c.id !in restDocs
          decreases |restDocs|
        {
          var k :| k in restDocs;
          var d := docs[k];
          if !d.processed && d.timestamp >= cutoff {
            var tagged := d.(id := k, userId := u);
            assert tagged !in found;
            DistinctAppend(found, [tagged]);
            found := found + [tagged];
          }
          restDocs := restDocs - {k};
        }
        DistinctAppend(captures, found);
        captures := captures + found;
        restUsers := restUsers - {u};
      }
    }

    /**
      The cross-user scan as written: it visits only the users whose user
      document exists, so the captures of every other owner are never found.
     */
    method GetUnprocessedCapturesAsWritten(now: Instant) returns (captures: seq<Capture>)
      ensures !configured ==> captures == []
      ensures configured ==> Distinct(captures)
      ensures configured ==> forall c :: c in captures <==> IsPending(users, now - OneDay, c) && c.userId in userDocuments
    {
      if !configured {
        return [];
      }
      captures := ScanOwners(userDocuments, now - OneDay);
    }

    /**
      The cross-user scan as intended: every unprocessed capture of every
      user stamped at or after one day before `now`, each once, tagged with
      its document id and owner. The batch uses this scan.
     */
    method GetUnprocessedCaptures(now: Instant) returns (captures: seq<Capture>)
      ensures !configured ==> captures == []
      ensures configured ==> Distinct(captures)
      ensures configured ==> forall c :: c in captures <==> IsPending(users, now - OneDay, c)
    {
      if !configured {
        return [];
      }
      captures := ScanOwners(users.Keys, now - OneDay);
    }

    /** Records the call and changes nothing: the source's update is a placeholder. */
    method UpdateCaptureSummary(captureId: string, summary: string)
      modifies this
      ensures users == old(users)
      ensures summaryUpdates == old(summaryUpdates) + [SummaryUpdate(captureId, summary)]
    {
      summaryUpdates := summaryUpdates + [SummaryUpdate(captureId, summary)];
    }

    /** Writes `data` under its owner as briefing `newId` (the fresh uuid) and returns that id. */
    method SaveBriefing(data: Briefing, newId: string) returns (id: string)
      modifies this
      ensures summaryUpdates == old(summaryUpdates)
      ensures !configured ==> id == MockBriefingId && users == old(users)
      ensures configured ==> id == newId && users == PutBriefing(old(users), data, newId)
    {
      if !configured {
        return MockBriefingId;
      }
      id := newId;
      users := PutBriefing(users, data, id);
    }

    /**
      The briefings of `userId`, most recently created first, at most
      `limit`; `ids` are the documents they were read from.
     */
    method GetUserBriefings(userId: string, limit: nat) returns (briefings: seq<BriefingEntry>, ghost ids: seq<string>)
      ensures !configured ==> briefings == [] && ids == []
      ensures configured ==> IsTopByRank(ids, BriefingsOf(userId).Keys, CreatedAtRank(BriefingsOf(userId)), limit)
      ensures |briefings| == |ids| <= limit
      ensures forall i :: 0 <= i < |ids| ==> ids[i] in BriefingsOf(userId) && briefings[i] == ToBriefingEntry(BriefingsOf(userId)[ids[i]])
      ensures forall i, j :: 0 <= i < j < |briefings| ==> briefings[i].createdAt >= briefings[j].createdAt
    {
      if !configured {
        return [], [];
      }
      var docs := BriefingsOf(userId);
      var rank := CreatedAtRank(docs);
      var picked := TopByRank(docs.Keys, rank, limit);
      ids := picked;
      briefings := [];
      for i := 0 to |picked|
        invariant |briefings| == i
        invariant forall k :: 0 <= k < i ==> briefings[k] == ToBriefingEntry(docs[picked[k]])
      {
        briefings := briefings + [ToBriefingEntry(docs[picked[i]])];
      }
      BriefingEntriesOrdered(docs, picked, briefings);
    }
  }

  /**
    On an empty database, a capture saved for a user without a user document
    (the only kind the backend creates) is missed by the scan as written and
    found by the intended scan.
   */
  method FreshCaptureScans(data: Capture, newId: string, now: Instant)
    returns (asWritten: seq<Capture>, intended: seq<Capture>)
    requires !data.processed && data.timestamp >= now - OneDay
    ensures asWritten == []
    ensures intended == [data.(id := newId)]
  {
    var store := new FirestoreService(true, {}, map[]);
    var _ := store.SaveCapture(data, newId);
    asWritten := store.GetUnprocessedCapturesAsWritten(now);
    intended := store.GetUnprocessedCaptures(now);
    var x := data.(id := newId);
    SavedCaptureIsPending(map[], data, newId, now - OneDay);
    forall c ensures c in intended <==> c == x {
      if c in intended {
        assert c.userId == data.userId && c.id == newId;
      }
    }
    OnlyElement(intended, x);
    NoMembers(asWritten);
  }

  /** A sequence without repeats whose only member is `x` is `[x]`. */
  lemma OnlyElement<T>(s: seq<T>, x: T)
    requires Distinct(s)
    requires forall c :: c in s <==> c == x
    ensures s == [x]
  {
    assert x in s;
    var i :| 0 <= i < |s| && s[i] == x;
    assert s[0] in s && s[|s| - 1] in s;
    assert s[0] == s[i] && s[|s| - 1] == s[i];
  }

  /** A sequence with no members is empty. */
  lemma NoMembers<T>(s: seq<T>)
    requires forall c :: c !in s
    ensures s == []
  {
    if s != [] {
      NonEmptyHasMember(s);
      assert false;
    }
  }

  lemma NonEmptyHasMember<T>(s: seq<T>)
    requires s != []
    ensures exists c :: c in s
  {
    assert s[0] in s;
  }
}
