/**
  The summarizer gateway: prepares page text and event fields for the
  generative model, and turns every failure into a message string. The model
  call and the page fetch (HTTP GET, status check and HTML text extraction)
  are functions that answer or fail with the exception's message.
 */
module Gemini {
  import opened Common
  import Calendar

  /** What each of the three operations asks the model. */
  datatype Prompt =
    | UrlSummaryPrompt(url: string, pageText: string)
    | TextSummaryPrompt(text: string)
    | BriefingPrompt(title: string, description: string, attendeeEmails: seq<string>)

  /** The service: a model when a project is configured, none otherwise. */
  datatype GeminiService = GeminiService(model: Option<Prompt -> Result<string>>)

  /** Fetches a URL and extracts its page text, or fails with the exception's message. */
  type Fetcher = string -> Result<string>

  /** The event fields `generate_briefing` reads; any of them may be missing. */
  datatype EventInfo = EventInfo(
    summary: Option<string>,
    description: Option<string>,
    attendees: Option<seq<Calendar.Attendee>>)

  const PageTextBudget: nat := 5000
  const Ellipsis: string := "..."
  const TextExcerptLength: nat := 200

  const NoModelUrlNotice: string := "内容の要約が利用できません（Gemini APIが設定されていません）"
  const NoModelTextNotice: string := "テキストの要約が利用できません（Gemini APIが設定されていません）\n\n元のテキスト: "
  const NoModelBriefingNotice: string := "ブリーフィングが利用できません（Gemini APIが設定されていません）"
  const SummaryErrorNotice: string := "要約中にエラーが発生しました: "
  const BriefingErrorNotice: string := "ブリーフィング生成中にエラーが発生しました: "

  // ---------------------------------------------------------------------
  // Whitespace collapsing: ' '.join(text.split())
  // ---------------------------------------------------------------------

  /** The characters Python's `str.isspace` accepts, on which `str.split()` splits. */
  predicate IsSpace(c: char) {
    || c == ' ' || c == '\t' || c == '\n' || c == '\r' || c == '\U{000B}' || c == '\U{000C}'
    || ('\U{001C}' <= c <= '\U{001F}')
    || c == '\U{0085}' || c == '\U{00A0}' || c == '\U{1680}'
    || ('\U{2000}' <= c <= '\U{200A}')
    || c == '\U{2028}' || c == '\U{2029}' || c == '\U{202F}' || c == '\U{205F}' || c == '\U{3000}'
  }

  predicate NoSpace(w: string) {
    forall i :: 0 <= i < |w| ==> !IsSpace(w[i])
  }

  /** Words as `str.split()` produces them: non-empty runs without whitespace. */
  predicate WellFormedWords(ws: seq<string>) {
    forall i :: 0 <= i < |ws| ==> ws[i] != [] && NoSpace(ws[i])
  }

  /** The non-whitespace characters of `s`, in order. */
  function Visible(s: string): string {
    if s == [] then [] else (if IsSpace(s[0]) then [] else [s[0]]) + Visible(s[1..])
  }

  function Concat(ws: seq<string>): string {
    if ws == [] then [] else ws[0] + Concat(ws[1..])
  }

  /** The length of the run of non-whitespace characters that `s` starts with. */
  function WordEnd(s: string): (n: nat)
    ensures n <= |s| && NoSpace(s[..n])
    ensures n < |s| ==> IsSpace(s[n])
  {
    if s == [] || IsSpace(s[0]) then 0 else 1 + WordEnd(s[1..])
  }

  /** Python's `s.split()`: the maximal runs of non-whitespace characters of `s`, in order. */
  function SplitWords(s: string): (ws: seq<string>)
    ensures WellFormedWords(ws)
    decreases |s|
  {
    if s == [] then []
    else if IsSpace(s[0]) then SplitWords(s[1..])
    else
      var n := WordEnd(s);
      [s[..n]] + SplitWords(s[n..])
  }

  /** Python's `' '.join(ws)`. */
  function JoinWords(ws: seq<string>): string {
    if ws == [] then ""
    else if |ws| == 1 then ws[0]
    else ws[0] + " " + JoinWords(ws[1..])
  }

  function CollapseWhitespace(s: string): string {
    JoinWords(SplitWords(s))
  }

  /** No leading or trailing whitespace, no whitespace but ' ', never two spaces in a row. */
  predicate Collapsed(r: string) {
    && (r != [] ==> !IsSpace(r[0]) && !IsSpace(r[|r| - 1]))
    && (forall i :: 0 <= i < |r| && IsSpace(r[i]) ==> r[i] == ' ')
    && (forall i, j :: 0 <= i < |r| && j == i + 1 < |r| ==> !(IsSpace(r[i]) && IsSpace(r[j])))
  }

  lemma {:induction false} VisibleAppend(a: string, b: string)
    ensures Visible(a + b) == Visible(a) + Visible(b)
    decreases |a|
  {
    if a != [] {
      assert (a + b)[1..] == a[1..] + b;
      VisibleAppend(a[1..], b);
    } else {
      assert a + b == b;
    }
  }

  lemma {:induction false} VisibleOfWord(w: string)
    requires NoSpace(w)
    ensures Visible(w) == w
    decreases |w|
  {
    if w != [] {
      VisibleOfWord(w[1..]);
    }
  }

  /** Splitting keeps every non-whitespace character, in order, and drops only whitespace. */
  lemma {:induction false} SplitWordsVisible(s: string)
    ensures Concat(SplitWords(s)) == Visible(s)
    decreases |s|
  {
    if s != [] {
      if IsSpace(s[0]) {
        SplitWordsVisible(s[1..]);
      } else {
        var n := WordEnd(s);
        SplitWordsVisible(s[n..]);
        assert s == s[..n] + s[n..];
        VisibleAppend(s[..n], s[n..]);
        VisibleOfWord(s[..n]);
      }
    }
  }

  /** Joining words with single spaces adds only whitespace. */
  lemma {:induction false} JoinWordsVisible(ws: seq<string>)
    requires WellFormedWords(ws)
    ensures Visible(JoinWords(ws)) == Concat(ws)
    decreases |ws|
  {
    if |ws| == 1 {
      VisibleOfWord(ws[0]);
      assert Concat(ws) == ws[0] + Concat([]);
    } else if |ws| > 1 {
      JoinWordsVisible(ws[1..]);
      VisibleAppend(ws[0] + " ", JoinWords(ws[1..]));
      VisibleAppend(ws[0], " ");
      VisibleOfWord(ws[0]);
    }
  }

  /** Joining well-formed words with single spaces gives a collapsed string, empty only for no words. */
  lemma {:induction false} JoinWordsCollapsed(ws: seq<string>)
    requires WellFormedWords(ws)
    ensures Collapsed(JoinWords(ws))
    ensures JoinWords(ws) == [] <==> ws == []
    decreases |ws|
  {
    if |ws| > 1 {
      JoinWordsCollapsed(ws[1..]);
      var w, j := ws[0], JoinWords(ws[1..]);
      var r := w + " " + j;
      assert r == JoinWords(ws);
      assert r[|r| - 1] == j[|j| - 1];
      forall i | 0 <= i < |r| && IsSpace(r[i]) ensures r[i] == ' ' {
        if i > |w| {
          assert r[i] == j[i - |w| - 1];
        }
      }
      forall i, k | 0 <= i < |r| && k == i + 1 < |r| ensures !(IsSpace(r[i]) && IsSpace(r[k])) {
        if k < |w| {
          assert r[i] == w[i] && r[k] == w[k];
        } else if k == |w| {
          assert r[i] == w[|w| - 1];
        } else if k == |w| + 1 {
          assert r[k] == j[0];
        } else {
          assert r[i] == j[i - |w| - 1] && r[k] == j[k - |w| - 1];
        }
      }
    }
  }

  lemma {:induction false} WordEndOfWord(w: string, rest: string)
    requires NoSpace(w)
    requires rest == [] || IsSpace(rest[0])
    ensures WordEnd(w + rest) == |w|
    decreases |w|
  {
    if w != [] {
      assert (w + rest)[1..] == w[1..] + rest;
      WordEndOfWord(w[1..], rest);
    }
  }

  /** Splitting undoes joining: `' '.join(ws).split() == ws` for words `split` can produce. */
  lemma {:induction false} SplitJoinRoundTrip(ws: seq<string>)
    requires WellFormedWords(ws)
    ensures SplitWords(JoinWords(ws)) == ws
    decreases |ws|
  {
    if |ws| == 1 {
      var w := ws[0];
      WordEndOfWord(w, []);
      assert w + [] == w;
      assert w[..|w|] == w;
    } else if |ws| > 1 {
      var w, j := ws[0], JoinWords(ws[1..]);
      var r := w + " " + j;
      assert r == w + (" " + j);
      WordEndOfWord(w, " " + j);
      assert r[..|w|] == w;
      assert r[|w|..] == " " + j;
      assert (" " + j)[1..] == j;
      SplitJoinRoundTrip(ws[1..]);
    }
  }

  /**
    `' '.join(text.split())` keeps the non-whitespace characters in order
    and leaves no leading, trailing or repeated whitespace.
   */
  lemma CollapseWhitespaceSpec(s: string)
    ensures Visible(CollapseWhitespace(s)) == Visible(s)
    ensures Collapsed(CollapseWhitespace(s))
    ensures CollapseWhitespace(s) == [] <==> Visible(s) == []
  {
    var ws := SplitWords(s);
    SplitWordsVisible(s);
    JoinWordsVisible(ws);
    JoinWordsCollapsed(ws);
    if ws != [] {
      assert ws[0] != [] && Concat(ws) == ws[0] + Concat(ws[1..]);
    }
  }

  /** Collapsing twice is collapsing once. */
  lemma CollapseWhitespaceIdempotent(s: string)
    ensures CollapseWhitespace(CollapseWhitespace(s)) == CollapseWhitespace(s)
  {
    SplitJoinRoundTrip(SplitWords(s));
  }

  // ---------------------------------------------------------------------
  // Truncation and page text
  // ---------------------------------------------------------------------

  /** Text over the budget becomes its first 5000 characters followed by "..."; shorter text is kept. */
  function TruncateText(t: string): (r: string)
    ensures |r| <= PageTextBudget + |Ellipsis|
    ensures |t| <= PageTextBudget ==> r == t
    ensures |t| > PageTextBudget ==> |r| == PageTextBudget + |Ellipsis| && IsPrefix(r[..PageTextBudget], t)
    ensures |t| > PageTextBudget ==> r[PageTextBudget..] == Ellipsis
  {
    if |t| > PageTextBudget then t[..PageTextBudget] + Ellipsis else t
  }

  /** The page text sent to the model: whitespace collapsed, then truncated. */
  function PreparePageText(page: string): (r: string)
    ensures |r| <= PageTextBudget + |Ellipsis|
  {
    TruncateText(CollapseWhitespace(page))
  }

  /** Short page text reaches the model whole, with its words intact and collapsed. */
  lemma ShortPageTextIsCollapsedWhole(page: string)
    requires |CollapseWhitespace(page)| <= PageTextBudget
    ensures PreparePageText(page) == CollapseWhitespace(page)
    ensures Visible(PreparePageText(page)) == Visible(page) && Collapsed(PreparePageText(page))
  {
    CollapseWhitespaceSpec(page);
  }

  // ---------------------------------------------------------------------
  // Attendee emails
  // ---------------------------------------------------------------------

  predicate HasEmail(a: Calendar.Attendee) {
    a.email.Some? && a.email.value != ""
  }

  /** `[a.get("email", "") for a in attendees if a.get("email")]`. */
  function AttendeeEmails(attendees: seq<Calendar.Attendee>): (r: seq<string>)
    ensures |r| <= |attendees|
    ensures forall i :: 0 <= i < |r| ==> r[i] != ""
  {
    if attendees == [] then []
    else (if HasEmail(attendees[0]) then [attendees[0].email.value] else []) + AttendeeEmails(attendees[1..])
  }

  /** The email list of `a + b` is that of `a` followed by that of `b`: original order is kept. */
  lemma {:induction false} AttendeeEmailsAppend(a: seq<Calendar.Attendee>, b: seq<Calendar.Attendee>)
    ensures AttendeeEmails(a + b) == AttendeeEmails(a) + AttendeeEmails(b)
    decreases |a|
  {
    if a != [] {
      assert (a + b)[1..] == a[1..] + b;
      AttendeeEmailsAppend(a[1..], b);
    } else {
      assert a + b == b;
    }
  }

  /** An email is listed exactly when some attendee has it as a non-empty email. */
  lemma {:induction false} AttendeeEmailsExact(attendees: seq<Calendar.Attendee>, e: string)
    ensures e in AttendeeEmails(attendees) <==> exists i :: 0 <= i < |attendees| && attendees[i].email == Some(e) && e != ""
    decreases |attendees|
  {
    if attendees != [] {
      AttendeeEmailsExact(attendees[1..], e);
      if exists i :: 0 <= i < |attendees| && attendees[i].email == Some(e) && e != "" {
        var i :| 0 <= i < |attendees| && attendees[i].email == Some(e) && e != "";
        if i > 0 {
          assert attendees[1..][i - 1] == attendees[i];
        }
      }
      if exists i :: 0 <= i < |attendees[1..]| && attendees[1..][i].email == Some(e) && e != "" {
        var i :| 0 <= i < |attendees[1..]| && attendees[1..][i].email == Some(e) && e != "";
        assert attendees[i + 1] == attendees[1..][i];
      }
    }
  }

  // ---------------------------------------------------------------------
  // The three operations
  // ---------------------------------------------------------------------

  /** The answer of the model to `prompt`, when there is a model and it answered. */
  predicate Answered(g: GeminiService, prompt: Prompt) {
    g.model.Some? && g.model.value(prompt).Ok?
  }

  function UrlPrompt(fetch: Fetcher, url: string): Prompt
    requires fetch(url).Ok?
  {
    UrlSummaryPrompt(url, PreparePageText(fetch(url).value))
  }

  /**
    `summarize_url`: the model's summary of the prepared page text when the
    fetch and the model both succeed; otherwise a message that starts with
    "URL: " and the url, for a failed fetch, a missing model or a failed
    model call alike.
   */
  function SummarizeUrl(g: GeminiService, fetch: Fetcher, url: string): (r: string)
    ensures fetch(url).Ok? && Answered(g, UrlPrompt(fetch, url)) ==> r == g.model.value(UrlPrompt(fetch, url)).value
    ensures !(fetch(url).Ok? && Answered(g, UrlPrompt(fetch, url))) ==> IsPrefix("URL: " + url + "\n", r)
    ensures fetch(url).Err? ==> r == "URL: " + url + "\n" + SummaryErrorNotice + fetch(url).message
    ensures fetch(url).Ok? && g.model.None? ==> r == "URL: " + url + "\n" + NoModelUrlNotice
    ensures fetch(url).Ok? && g.model.Some? && g.model.value(UrlPrompt(fetch, url)).Err? ==>
      r == "URL: " + url + "\n" + SummaryErrorNotice + g.model.value(UrlPrompt(fetch, url)).message
  {
    match fetch(url)
    case Err(e) => "URL: " + url + "\n" + SummaryErrorNotice + e
    case Ok(page) =>
      match g.model
      case None => "URL: " + url + "\n" + NoModelUrlNotice
      case Some(model) =>
        match model(UrlSummaryPrompt(url, PreparePageText(page)))
        case Ok(summary) => summary
        case Err(e) => "URL: " + url + "\n" + SummaryErrorNotice + e
  }

  /**
    `summarize_text`: the model's summary when it answers; the error message
    when the call fails; without a model, a notice that embeds the first 200
    characters of the text.
   */
  function SummarizeText(g: GeminiService, text: string): (r: string)
    ensures Answered(g, TextSummaryPrompt(text)) ==> r == g.model.value(TextSummaryPrompt(text)).value
    ensures g.model.Some? && !Answered(g, TextSummaryPrompt(text)) ==> IsPrefix(SummaryErrorNotice, r)
    ensures g.model.None? ==> r == NoModelTextNotice + text[..Min(TextExcerptLength, |text|)] + Ellipsis
  {
    match g.model
    case None => NoModelTextNotice + text[..Min(TextExcerptLength, |text|)] + Ellipsis
    case Some(model) =>
      match model(TextSummaryPrompt(text))
      case Ok(summary) => summary
      case Err(e) => SummaryErrorNotice + e
  }

  /** The briefing prompt: missing title and description read as "", missing attendees as none. */
  function BriefingPromptFor(event: EventInfo): (p: Prompt)
    ensures p.BriefingPrompt?
    ensures event.summary.None? ==> p.title == ""
    ensures event.summary.Some? ==> p.title == event.summary.value
    ensures event.description.None? ==> p.description == ""
    ensures event.description.Some? ==> p.description == event.description.value
    ensures event.attendees.None? ==> p.attendeeEmails == []
    ensures event.attendees.Some? ==> p.attendeeEmails == AttendeeEmails(event.attendees.value)
  {
    BriefingPrompt(
      event.summary.GetOr(""),
      event.description.GetOr(""),
      AttendeeEmails(event.attendees.GetOr([])))
  }

  /**
    `generate_briefing`: the model's briefing when it answers; the error
    message when the call fails; without a model, a notice that starts with
    "イベント: " and the event title.
   */
  function GenerateBriefing(g: GeminiService, event: EventInfo): (r: string)
    ensures Answered(g, BriefingPromptFor(event)) ==> r == g.model.value(BriefingPromptFor(event)).value
    ensures g.model.Some? && !Answered(g, BriefingPromptFor(event)) ==> IsPrefix(BriefingErrorNotice, r)
    ensures g.model.None? ==> IsPrefix("イベント: " + BriefingPromptFor(event).title + "\n", r)
  {
    var prompt := BriefingPromptFor(event);
    match g.model
    case None => "イベント: " + prompt.title + "\n" + NoModelBriefingNotice
    case Some(model) =>
      match model(prompt)
      case Ok(briefing) => briefing
      case Err(e) => BriefingErrorNotice + e
  }
}
