/**
  The "past mode" endpoints: capturing content, reading the digest of
  processed captures, and the nightly batch that summarises every recent
  unprocessed capture of every user.
 */
module PastMode {
  import opened Common
  import opened Firestore
  import Gemini

  /** The body of a capture request; `kind` is its `type` field. */
  datatype CaptureRequest = CaptureRequest(kind: string, content: string, metadata: Option<map<string, string>>)

  datatype CaptureResponse = CaptureResponse(
    id: string,
    kind: string,
    content: string,
    timestamp: Instant,
    processed: bool,
    summary: Option<string>)

  datatype DigestResponse = DigestResponse(captures: seq<CaptureResponse>, generatedAt: Instant)

  // ---------------------------------------------------------------------
  // POST /capture and GET /digest
  // ---------------------------------------------------------------------

  /**
    The document a capture request creates for `userId` at `now`:
    unprocessed, without a summary, metadata `{}` when the request has none.
    Its `id` is written by the store.
   */
  function NewCapture(userId: string, request: CaptureRequest, now: Instant): (c: Capture)
    ensures c.userId == userId && c.kind == request.kind && c.content == request.content
    ensures c.timestamp == now && !c.processed && c.summary.None?
    ensures request.metadata.None? ==> c.metadata == map[]
    ensures request.metadata.Some? ==> c.metadata == request.metadata.value
  {
    Capture("", userId, request.kind, request.content, request.metadata.GetOr(map[]), now, false, None)
  }

  /**
    Stores the new capture and echoes the request: the id is the one the
    store returned, and the capture is reported unprocessed.
   */
  method CaptureContent(store: FirestoreService, userId: string, request: CaptureRequest, now: Instant, newId: string)
    returns (response: CaptureResponse)
    modifies store
    ensures store.summaryUpdates == old(store.summaryUpdates)
    ensures store.configured ==> store.users == PutCapture(old(store.users), NewCapture(userId, request, now), newId)
    ensures !store.configured ==> store.users == old(store.users)
    ensures response.id == (if store.configured then newId else MockCaptureId)
    ensures response.kind == request.kind && response.content == request.content
    ensures response.timestamp == now && !response.processed && response.summary.None?
  {
    var data := NewCapture(userId, request, now);
    var id := store.SaveCapture(data, newId);
    response := CaptureResponse(id, request.kind, request.content, data.timestamp, false, None);
  }

  function DigestToResponse(e: DigestEntry): CaptureResponse {
    CaptureResponse(e.id, e.kind, e.content, e.timestamp, e.processed, Some(e.summary))
  }

  /**
    The digest: the user's processed captures, newest first, at most 20,
    each with its summary ("" when the document has none).
   */
  method GetDigest(store: FirestoreService, userId: string, now: Instant)
    returns (response: DigestResponse, ghost ids: seq<string>)
    ensures response.generatedAt == now
    ensures !store.configured ==> response.captures == []
    ensures store.configured ==>
      Ranking.IsTopByRank(ids, ProcessedIds(store.CapturesOf(userId)), TimestampRank(store.CapturesOf(userId)), DefaultLimit)
    ensures |response.captures| == |ids| <= DefaultLimit
    ensures forall i :: 0 <= i < |ids| ==>
      ids[i] in store.CapturesOf(userId) && response.captures[i] == DigestToResponse(ToDigestEntry(store.CapturesOf(userId)[ids[i]]))
    ensures forall i :: 0 <= i < |response.captures| ==> response.captures[i].processed && response.captures[i].summary.Some?
  {
    var entries;
    entries, ids := store.GetProcessedCaptures(userId, DefaultLimit);
    var captures := [];
    for i := 0 to |entries|
      invariant |captures| == i
      invariant forall k :: 0 <= k < i ==> captures[k] == DigestToResponse(entries[k])
    {
      captures := captures + [DigestToResponse(entries[i])];
    }
    response := DigestResponse(captures, now);
  }

  // ---------------------------------------------------------------------
  // POST /process-batch
  // ---------------------------------------------------------------------

  /** A summariser as the batch calls it: it returns a summary or raises. */
  type Summarizer = string -> Result<string>

  /** What the batch does with one capture. */
  datatype ItemOutcome = Skipped | Failed(message: string) | Summarized(summary: string)

  predicate Summarizable(c: Capture) {
    c.kind == "url" || c.kind == "text"
  }

  /**
    Dispatch by type: "url" goes to the URL summariser, "text" to the text
    summariser, anything else is skipped without calling either.
   */
  function Dispatch(c: Capture, summarizeUrl: Summarizer, summarizeText: Summarizer): (o: ItemOutcome)
    ensures o.Skipped? <==> !Summarizable(c)
    ensures c.kind == "url" ==> (o.Summarized? <==> summarizeUrl(c.content).Ok?)
    ensures c.kind == "url" && o.Summarized? ==> o.summary == summarizeUrl(c.content).value
    ensures c.kind == "text" ==> (o.Summarized? <==> summarizeText(c.content).Ok?)
    ensures c.kind == "text" && o.Summarized? ==> o.summary == summarizeText(c.content).value
  {
    var call: Option<Result<string>> :=
      if c.kind == "url" then Some(summarizeUrl(c.content))
      else if c.kind == "text" then Some(summarizeText(c.content))
      else None;
    match call
    case None => Skipped
    case Some(Ok(summary)) => Summarized(summary)
    case Some(Err(message)) => Failed(message)
  }

  function UpdateFor(c: Capture, summarizeUrl: Summarizer, summarizeText: Summarizer): seq<SummaryUpdate> {
    match Dispatch(c, summarizeUrl, summarizeText)
    case Summarized(summary) => [SummaryUpdate(c.id, summary)]
    case _ => []
  }

  /** The update calls the batch makes for `pending`, in order: one per summarised capture. */
  function UpdatesFor(pending: seq<Capture>, summarizeUrl: Summarizer, summarizeText: Summarizer): (r: seq<SummaryUpdate>)
    ensures |r| <= |pending|
  {
    if pending == [] then []
    else
      var init := pending[..|pending| - 1];
      UpdatesFor(init, summarizeUrl, summarizeText) + UpdateFor(pending[|pending| - 1], summarizeUrl, summarizeText)
  }

  /**
    The nightly batch. Scans every user's unprocessed captures of the last
    day, summarises each url or text capture, calls the summary update with
    the capture's id and the new summary, and counts it; a capture whose
    summariser raises is passed over and the scan continues. The update
    stores nothing, so the store is left as it was.
   */
  method ProcessBatch(store: FirestoreService, summarizeUrl: Summarizer, summarizeText: Summarizer, now: Instant)
    returns (processedCount: nat, ghost pending: seq<Capture>)
    modifies store
    ensures store.users == old(store.users)
    ensures !store.configured ==> pending == []
    ensures store.configured ==> Distinct(pending)
    ensures store.configured ==> forall c :: c in pending <==> IsPending(old(store.users), now - OneDay, c)
    ensures store.summaryUpdates == old(store.summaryUpdates) + UpdatesFor(pending, summarizeUrl, summarizeText)
    ensures processedCount == |UpdatesFor(pending, summarizeUrl, summarizeText)|
  {
    var captures := store.GetUnprocessedCaptures(now);
    pending := captures;
    processedCount := SummarizeScan(store, captures, summarizeUrl, summarizeText);
  }

  /** The loop of the batch: each scanned capture in turn, counting those it summarised. */
  method SummarizeScan(store: FirestoreService, captures: seq<Capture>, summarizeUrl: Summarizer, summarizeText: Summarizer)
    returns (processedCount: nat)
    modifies store
    ensures store.users == old(store.users)
    ensures store.summaryUpdates == old(store.summaryUpdates) + UpdatesFor(captures, summarizeUrl, summarizeText)
    ensures processedCount == |UpdatesFor(captures, summarizeUrl, summarizeText)|
  {
    processedCount := 0;
    for i := 0 to |captures|
      invariant store.users == old(store.users)
      invariant store.summaryUpdates == old(store.summaryUpdates) + UpdatesFor(captures[..i], summarizeUrl, summarizeText)
      invariant processedCount == |UpdatesFor(captures[..i], summarizeUrl, summarizeText)|
    {
      UpdatesForStep(captures, i, summarizeUrl, summarizeText);
      var counted := SummarizeOne(store, captures[i], summarizeUrl, summarizeText);
      if counted {
        processedCount := processedCount + 1;
      }
    }
    assert captures[..|captures|] == captures;
  }

  /**
    The body of the batch loop for one capture: dispatch by type, pass a
    raising summariser over, and otherwise call the summary update and
    report the capture as counted.
   */
  method SummarizeOne(store: FirestoreService, c: Capture, summarizeUrl: Summarizer, summarizeText: Summarizer)
    returns (counted: bool)
    modifies store
    ensures store.users == old(store.users)
    ensures store.summaryUpdates == old(store.summaryUpdates) + UpdateFor(c, summarizeUrl, summarizeText)
    ensures counted <==> |UpdateFor(c, summarizeUrl, summarizeText)| == 1
    ensures !counted ==> UpdateFor(c, summarizeUrl, summarizeText) == []
  {
    var call: Result<string>;
    if c.kind == "url" {
      call := summarizeUrl(c.content);
    } else if c.kind == "text" {
      call := summarizeText(c.content);
    } else {
      assert UpdateFor(c, summarizeUrl, summarizeText) == [];
      return false;
    }
    if call.Err? {
      // the exception is caught and logged; the scan goes on
      assert UpdateFor(c, summarizeUrl, summarizeText) == [];
      return false;
    }
    assert UpdateFor(c, summarizeUrl, summarizeText) == [SummaryUpdate(c.id, call.value)];
    store.UpdateCaptureSummary(c.id, call.value);
    counted := true;
  }

  /** One more capture scanned adds its own update, if any, at the end. */
  lemma UpdatesForStep(captures: seq<Capture>, i: nat, su: Summarizer, st: Summarizer)
    requires i < |captures|
    ensures UpdatesFor(captures[..i + 1], su, st) == UpdatesFor(captures[..i], su, st) + UpdateFor(captures[i], su, st)
  {
    assert captures[..i + 1][..i] == captures[..i];
  }

  // ---------------------------------------------------------------------
  // Properties of the batch
  // ---------------------------------------------------------------------

  /** Per-item isolation: the updates for `a + b` are those for `a` followed by those for `b`. */
  lemma {:induction false} UpdatesForAppend(a: seq<Capture>, b: seq<Capture>, su: Summarizer, st: Summarizer)
    ensures UpdatesFor(a + b, su, st) == UpdatesFor(a, su, st) + UpdatesFor(b, su, st)
    decreases |b|
  {
    if b == [] {
      assert a + b == a;
    } else {
      var b' := b[..|b| - 1];
      assert (a + b)[..|a + b| - 1] == a + b';
      assert (a + b)[|a + b| - 1] == b[|b| - 1];
      UpdatesForAppend(a, b', su, st);
    }
  }

  /**
    The updates are exactly those of the summarised captures: every update
    carries the id and summary of a capture summarised in this run, and
    every summarised capture gets its update.
   */
  lemma {:induction false} UpdatesForExact(pending: seq<Capture>, su: Summarizer, st: Summarizer)
    ensures forall u :: u in UpdatesFor(pending, su, st) ==>
      exists c :: c in pending && c.id == u.captureId && Dispatch(c, su, st) == Summarized(u.summary)
    ensures forall c :: c in pending && Dispatch(c, su, st).Summarized? ==>
      SummaryUpdate(c.id, Dispatch(c, su, st).summary) in UpdatesFor(pending, su, st)
    decreases |pending|
  {
    if pending != [] {
      var init, last := pending[..|pending| - 1], pending[|pending| - 1];
      UpdatesForExact(init, su, st);
      assert pending == init + [last];
      forall u | u in UpdatesFor(pending, su, st)
        ensures exists c :: c in pending && c.id == u.captureId && Dispatch(c, su, st) == Summarized(u.summary)
      {
        if u in UpdatesFor(init, su, st) {
          var c :| c in init && c.id == u.captureId && Dispatch(c, su, st) == Summarized(u.summary);
          assert c in pending;
        } else {
          assert u in UpdateFor(last, su, st);
        }
      }
      forall c | c in pending && Dispatch(c, su, st).Summarized?
        ensures SummaryUpdate(c.id, Dispatch(c, su, st).summary) in UpdatesFor(pending, su, st)
      {
        if c != last {
          assert c in init;
        }
      }
    }
  }

  /** When every capture is summarised, every capture is counted. */
  lemma {:induction false} AllSummarizedAllCounted(pending: seq<Capture>, su: Summarizer, st: Summarizer)
    requires forall i :: 0 <= i < |pending| ==> Dispatch(pending[i], su, st).Summarized?
    ensures |UpdatesFor(pending, su, st)| == |pending|
    decreases |pending|
  {
    if pending != [] {
      AllSummarizedAllCounted(pending[..|pending| - 1], su, st);
    }
  }

  /**
    Of N captures that are all summarised except capture k, whose summariser
    raises, N - 1 are counted: the failure costs only its own capture.
   */
  lemma SingleFailureIsolated(pending: seq<Capture>, k: nat, su: Summarizer, st: Summarizer)
    requires k < |pending|
    requires Dispatch(pending[k], su, st).Failed?
    requires forall i :: 0 <= i < |pending| && i != k ==> Dispatch(pending[i], su, st).Summarized?
    ensures |UpdatesFor(pending, su, st)| == |pending| - 1
  {
    var a, x, b := pending[..k], pending[k], pending[k + 1..];
    assert pending == a + [x] + b;
    UpdatesForAppend(a + [x], b, su, st);
    UpdatesForAppend(a, [x], su, st);
    assert UpdatesFor([x], su, st) == UpdatesFor([], su, st) + UpdateFor(x, su, st);
    forall i | 0 <= i < |a| ensures Dispatch(a[i], su, st).Summarized? {
      assert a[i] == pending[i];
    }
    forall i | 0 <= i < |b| ensures Dispatch(b[i], su, st).Summarized? {
      assert b[i] == pending[k + 1 + i];
    }
    AllSummarizedAllCounted(a, su, st);
    AllSummarizedAllCounted(b, su, st);
  }

  /** The captures of `pending` that the run summarises. */
  ghost function SummarizedSet(pending: seq<Capture>, su: Summarizer, st: Summarizer): set<Capture> {
    set c | c in pending && Dispatch(c, su, st).Summarized?
  }

  /** For a scan without repeats, the count is the number of distinct summarised captures. */
  lemma {:induction false} CountIsSummarizedSetSize(pending: seq<Capture>, su: Summarizer, st: Summarizer)
    requires Distinct(pending)
    ensures |UpdatesFor(pending, su, st)| == |SummarizedSet(pending, su, st)|
    decreases |pending|
  {
    if pending == [] {
      assert SummarizedSet(pending, su, st) == {};
    } else {
      var init, last := pending[..|pending| - 1], pending[|pending| - 1];
      DistinctSplitLast(pending);
      CountIsSummarizedSetSize(init, su, st);
      SummarizedSetStep(pending, su, st);
      if Dispatch(last, su, st).Summarized? {
        assert last !in SummarizedSet(init, su, st);
      }
    }
  }

  /** Without repeats, the last element is not among the others, which have no repeats either. */
  lemma DistinctSplitLast<T>(s: seq<T>)
    requires Distinct(s) && s != []
    ensures Distinct(s[..|s| - 1]) && s[|s| - 1] !in s[..|s| - 1]
  {
    var init := s[..|s| - 1];
    forall k | 0 <= k < |init| ensures init[k] != s[|s| - 1] {
      assert init[k] == s[k];
    }
  }

  /** Scanning one more capture adds it to the summarised set exactly when it is summarised. */
  lemma SummarizedSetStep(pending: seq<Capture>, su: Summarizer, st: Summarizer)
    requires pending != []
    ensures var init, last := pending[..|pending| - 1], pending[|pending| - 1];
      SummarizedSet(pending, su, st) ==
        SummarizedSet(init, su, st) + (if Dispatch(last, su, st).Summarized? then {last} else {})
  {
    var init, last := pending[..|pending| - 1], pending[|pending| - 1];
    assert pending == init + [last];
  }

  /** The count does not depend on the order in which the scan returns the captures. */
  lemma CountIgnoresScanOrder(p: seq<Capture>, q: seq<Capture>, su: Summarizer, st: Summarizer)
    requires Distinct(p) && Distinct(q)
    requires forall c :: c in p <==> c in q
    ensures |UpdatesFor(p, su, st)| == |UpdatesFor(q, su, st)|
  {
    CountIsSummarizedSetSize(p, su, st);
    CountIsSummarizedSetSize(q, su, st);
    assert SummarizedSet(p, su, st) == SummarizedSet(q, su, st);
  }

  /** The number of url and text captures in `pending`. */
  function CountSummarizable(pending: seq<Capture>): (n: nat)
    ensures n <= |pending|
  {
    if pending == [] then 0
    else CountSummarizable(pending[..|pending| - 1]) + (if Summarizable(pending[|pending| - 1]) then 1 else 0)
  }

  /** The batch's summarisers backed by the summarizer gateway, which returns a string whatever happens. */
  function GeminiUrlSummarizer(g: Gemini.GeminiService, fetch: Gemini.Fetcher): Summarizer {
    url => Ok(Gemini.SummarizeUrl(g, fetch, url))
  }

  function GeminiTextSummarizer(g: Gemini.GeminiService): Summarizer {
    text => Ok(Gemini.SummarizeText(g, text))
  }

  /**
    With the gateway's summarisers nothing raises, so the batch counts every
    url and text capture it scanned, fallback messages included.
   */
  lemma {:induction false} GeminiBatchCountsEverySummarizable(pending: seq<Capture>, g: Gemini.GeminiService, fetch: Gemini.Fetcher)
    ensures |UpdatesFor(pending, GeminiUrlSummarizer(g, fetch), GeminiTextSummarizer(g))| == CountSummarizable(pending)
    decreases |pending|
  {
    if pending != [] {
      GeminiBatchCountsEverySummarizable(pending[..|pending| - 1], g, fetch);
    }
  }

  /** Every capture pending for the window from `cutoff` is stamped at or after `later`: none drops out of a later window. */
  ghost predicate StillInWindow(users: Users, cutoff: Instant, later: Instant) {
    forall c :: IsPending(users, cutoff, c) ==> c.timestamp >= later
  }

  /** A later scan of an unchanged store, before any pending capture drops out of the window, finds the same captures. */
  lemma SameScanInWindow(users: Users, cutoff: Instant, later: Instant)
    requires cutoff <= later && StillInWindow(users, cutoff, later)
    ensures forall c :: IsPending(users, cutoff, c) <==> IsPending(users, later, c)
  {
    forall c | IsPending(users, cutoff, c) ensures IsPending(users, later, c) {
      assert c.timestamp == users[c.userId].captures[c.id].timestamp;
    }
  }

  /**
    Because the summary update stores nothing, a second run at a `later`
    instant, before any pending capture leaves the 24-hour window, scans the
    same captures, summarises each one the first run summarised again, and
    counts as many. The summarisers are functions of the capture content,
    so a capture that failed once fails again.
   */
  method BatchRerunCountsAgain(store: FirestoreService, summarizeUrl: Summarizer, summarizeText: Summarizer, now: Instant, later: Instant)
    returns (first: nat, second: nat, ghost firstScan: seq<Capture>, ghost secondScan: seq<Capture>)
    requires now <= later && StillInWindow(store.users, now - OneDay, later - OneDay)
    modifies store
    ensures store.users == old(store.users)
    ensures forall c :: c in firstScan <==> c in secondScan
    ensures forall c :: c in firstScan && Dispatch(c, summarizeUrl, summarizeText).Summarized? ==>
      SummaryUpdate(c.id, Dispatch(c, summarizeUrl, summarizeText).summary) in UpdatesFor(secondScan, summarizeUrl, summarizeText)
    ensures first == second
  {
    first, firstScan := ProcessBatch(store, summarizeUrl, summarizeText, now);
    second, secondScan := ProcessBatch(store, summarizeUrl, summarizeText, later);
    if store.configured {
      SameScanInWindow(store.users, now - OneDay, later - OneDay);
      CountIgnoresScanOrder(firstScan, secondScan, summarizeUrl, summarizeText);
    }
    UpdatesForExact(secondScan, summarizeUrl, summarizeText);
  }
}
