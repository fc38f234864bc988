/** The delivery worker: the news message it assembles for a topic, the
    delivery task that sends it to the owner's first verified number and
    records the outcome, and the two hourly dispatchers that choose which
    schedules to run. NewsData, Gemini and Twilio are parameters: `fetch`
    answers a news query, `ai` answers a prompt, `transport` answers a send. */
module CeleryWorker {
  import opened Seqs
  import opened Digits
  import opened Models
  import opened Crud

  // ----- summaries -----

  /** What the summarization model does with a prompt: text, or an exception. */
  datatype AiReply = Generated(text: string) | AiFailed

  const FallbackPrefix: string := "(AI Unavailable) "
  const SummaryLimit: nat := 100

  /** The request sent to the model for an article's text. */
  datatype Prompt = SummaryRequest(article: string)

  /** The text of the request: a fixed instruction followed by the article. */
  function PromptText(p: Prompt): string
  {
    "Summarize the following news article in one line:\n\n" + p.article
  }

  /** Different articles give different prompt texts, so the model may be
      seen as answering the request rather than its text. */
  lemma PromptTextInjective(p: Prompt, q: Prompt)
    ensures PromptText(p) == PromptText(q) <==> p == q
  {
    var n := |PromptText(p)| - |p.article|;
    if PromptText(p) == PromptText(q) {
      assert p.article == PromptText(p)[n..] == PromptText(q)[n..] == q.article;
    }
  }

  /** The summary used when the model fails: the text itself, cut to its
      first 100 characters and marked with "..." when it is longer. */
  function FallbackSummary(text: string): (r: string)
    ensures |FallbackPrefix| <= |r| && r[..|FallbackPrefix|] == FallbackPrefix
    ensures |r| == |FallbackPrefix| + (if |text| > SummaryLimit then SummaryLimit + 3 else |text|)
    ensures |text| <= SummaryLimit ==> r[|FallbackPrefix|..] == text
    ensures |text| > SummaryLimit ==>
              && r[|FallbackPrefix|..|FallbackPrefix| + SummaryLimit] == text[..SummaryLimit]
              && r[|r| - 3..] == "..."
  {
    var short := if |text| > SummaryLimit then text[..SummaryLimit] + "..." else text;
    FallbackPrefix + short
  }

  /** The characters Python's `str.isspace` accepts, which `str.strip` removes. */
  predicate IsSpace(c: char)
  {
    || c == ' ' || c == '\t' || c == '\n' || c == '\r' || c == '\U{B}' || c == '\U{C}'
    || ('\U{1C}' <= c <= '\U{1F}')
    || c == '\U{85}' || c == '\U{A0}' || c == '\U{1680}'
    || ('\U{2000}' <= c <= '\U{200A}')
    || c == '\U{2028}' || c == '\U{2029}' || c == '\U{202F}' || c == '\U{205F}' || c == '\U{3000}'
  }

  /** How many characters at the start of `s` satisfy `p`. */
  function LeadingRun(s: string, p: char -> bool): (n: nat)
    ensures n <= |s|
    decreases |s|
  {
    if s != [] && p(s[0]) then 1 + LeadingRun(s[1..], p) else 0
  }

  /** How many characters at the end of `s` satisfy `p`. */
  function TrailingRun(s: string, p: char -> bool): (n: nat)
    ensures n <= |s|
    decreases |s|
  {
    if s != [] && p(s[|s| - 1]) then 1 + TrailingRun(s[..|s| - 1], p) else 0
  }

  /** `s` without the characters satisfying `p` at its two ends. */
  function Trim(s: string, p: char -> bool): string
  {
    var rest := s[LeadingRun(s, p)..];
    rest[..|rest| - TrailingRun(rest, p)]
  }

  /** `str.strip()`: `s` without its leading and its trailing white space. */
  function Strip(s: string): string
  {
    Trim(s, IsSpace)
  }

  /** The leading run satisfies `p` throughout, and what follows it does not
      start with a character satisfying `p`. */
  lemma {:induction false} LeadingRunExact(s: string, p: char -> bool)
    ensures forall k :: 0 <= k < LeadingRun(s, p) ==> p(s[k])
    ensures LeadingRun(s, p) == |s| || !p(s[LeadingRun(s, p)])
    decreases |s|
  {
    if s != [] && p(s[0]) {
      LeadingRunExact(s[1..], p);
    }
  }

  /** The trailing run satisfies `p` throughout, and what precedes it does
      not end with a character satisfying `p`. */
  lemma {:induction false} TrailingRunExact(s: string, p: char -> bool)
    ensures forall k :: |s| - TrailingRun(s, p) <= k < |s| ==> p(s[k])
    ensures TrailingRun(s, p) == |s| || !p(s[|s| - TrailingRun(s, p) - 1])
    decreases |s|
  {
    if s != [] && p(s[|s| - 1]) {
      TrailingRunExact(s[..|s| - 1], p);
    }
  }

  /** A trimmed string is the slice of `s` after its leading run. */
  lemma TrimSlice(s: string, p: char -> bool)
    ensures var i := LeadingRun(s, p);
            var r := Trim(s, p);
            i + |r| <= |s| && r == s[i..i + |r|]
  {
    var i := LeadingRun(s, p);
    var rest := s[i..];
    var r := rest[..|rest| - TrailingRun(rest, p)];
    assert r == s[i..i + |r|];
  }

  /** What trimming removes at the end of `s` satisfies `p`. */
  lemma TrimDropsTrailing(s: string, p: char -> bool)
    ensures var i := LeadingRun(s, p);
            var r := Trim(s, p);
            i + |r| <= |s| && forall k :: i + |r| <= k < |s| ==> p(s[k])
  {
    var i := LeadingRun(s, p);
    var rest := s[i..];
    var r := rest[..|rest| - TrailingRun(rest, p)];
    TrailingRunExact(rest, p);
    forall k | i + |r| <= k < |s|
      ensures p(s[k])
    {
      assert s[k] == rest[k - i];
    }
  }

  /** Neither end of a trimmed string satisfies `p`. */
  lemma TrimEnds(s: string, p: char -> bool)
    ensures var r := Trim(s, p);
            r == [] || (!p(r[0]) && !p(r[|r| - 1]))
  {
    var i := LeadingRun(s, p);
    var rest := s[i..];
    var t := TrailingRun(rest, p);
    var r := rest[..|rest| - t];
    if r != [] {
      LeadingRunExact(s, p);
      TrailingRunExact(rest, p);
      assert r[0] == rest[0] == s[i];
      assert r[|r| - 1] == rest[|rest| - t - 1];
    }
  }

  /** A trimmed string is a slice of `s` from which only characters
      satisfying `p` were removed at the two ends, and neither of its ends
      satisfies `p`. */
  lemma TrimExact(s: string, p: char -> bool)
    ensures var i := LeadingRun(s, p);
            var r := Trim(s, p);
            && i + |r| <= |s| && r == s[i..i + |r|]
            && (forall k :: 0 <= k < i ==> p(s[k]))
            && (forall k :: i + |r| <= k < |s| ==> p(s[k]))
            && (r == [] || (!p(r[0]) && !p(r[|r| - 1])))
  {
    LeadingRunExact(s, p);
    TrimSlice(s, p);
    TrimDropsTrailing(s, p);
    TrimEnds(s, p);
  }

  /** A stripped string is `s` with only white space removed from its two
      ends, and has no white space at either end. */
  lemma StripExact(s: string)
    ensures var i := LeadingRun(s, IsSpace);
            var r := Strip(s);
            && i + |r| <= |s| && r == s[i..i + |r|]
            && (forall k :: 0 <= k < i ==> IsSpace(s[k]))
            && (forall k :: i + |r| <= k < |s| ==> IsSpace(s[k]))
            && (r == [] || (!IsSpace(r[0]) && !IsSpace(r[|r| - 1])))
  {
    TrimExact(s, IsSpace);
  }

  /** Stripping is idempotent. */
  lemma StripIdempotent(s: string)
    ensures Strip(Strip(s)) == Strip(s)
  {
    var r := Strip(s);
    TrimExact(s, IsSpace);
    if r != [] {
      assert LeadingRun(r, IsSpace) == 0;
      assert TrailingRun(r, IsSpace) == 0;
    }
  }

  /** `summarize_news`: the model's one-line summary, stripped, or the fallback
      when the model raises. */
  function SummarizeNews(text: string, ai: Prompt -> AiReply): string
  {
    match ai(SummaryRequest(text))
    case Generated(summary) => Strip(summary)
    case AiFailed => FallbackSummary(text)
  }

  /** A summary is either the model's answer with only white space cut from
      its ends, or, when the model raises, the marked fallback. */
  lemma SummarizeNewsOutcome(text: string, ai: Prompt -> AiReply)
    ensures var summary := SummarizeNews(text, ai);
            match ai(SummaryRequest(text))
            case Generated(g) =>
              var i := LeadingRun(g, IsSpace);
              && i + |summary| <= |g| && summary == g[i..i + |summary|]
              && (forall k :: 0 <= k < i ==> IsSpace(g[k]))
              && (forall k :: i + |summary| <= k < |g| ==> IsSpace(g[k]))
              && (summary == [] || (!IsSpace(summary[0]) && !IsSpace(summary[|summary| - 1])))
            case AiFailed =>
              && summary == FallbackSummary(text)
              && |FallbackPrefix| <= |summary| && summary[..|FallbackPrefix|] == FallbackPrefix
  {
    match ai(SummaryRequest(text))
    case Generated(g) => StripExact(g);
    case AiFailed =>
  }

  // ----- the news message -----

  /** One result of the news API. None stands for a key the article lacks. */
  datatype Article = Article(
    title: Option<string>,
    sourceId: Option<string>,
    pubDate: Option<string>,
    link: Option<string>,
    content: Option<string>,
    description: Option<string>)

  /** What the news request gives: an exception (network, decoding), or the
      decoded body's "status" and "results". */
  datatype NewsResponse = RequestFailed(error: string) | NewsData(status: Option<string>, results: seq<Article>)

  /** The query parameters of the request for a topic. */
  datatype NewsQuery = NewsQuery(keywords: string, country: string, language: string)

  function QueryFor(t: Topic): NewsQuery
  {
    NewsQuery(t.keywords, t.countryCode, t.language)
  }

  const MaxArticles: nat := 3
  const Separator: string := "\n\n"
  const Newspaper: string := "\U{1F5DE}\U{FE0F}"
  const Warning: string := "\U{26A0}\U{FE0F}"
  const NoNewsText: string := Warning + " No news found for your topic."

  function ErrorText(error: string): string
  {
    Warning + " Error fetching news: " + error
  }

  /** The KeyError of the first required key the article lacks, in the order
      the loop reads them ("title", then "pubDate", then "link"). */
  function MissingKey(a: Article): Option<string>
  {
    if a.title.None? then Some("'title'")
    else if a.pubDate.None? then Some("'pubDate'")
    else if a.link.None? then Some("'link'")
    else None
  }

  function LacksKey(): Article -> bool { (a: Article) => MissingKey(a).Some? }

  /** The text summarized: "content", else "description", else the title. */
  function ArticleText(a: Article): string
    requires a.title.Some?
  {
    if a.content.Some? then a.content.value
    else if a.description.Some? then a.description.value
    else a.title.value
  }

  /** The message block of one article, as its pieces in order. */
  function BlockPieces(a: Article, ai: Prompt -> AiReply): (pieces: seq<string>)
    requires MissingKey(a).None?
    ensures |pieces| > 0 && pieces[0] == Newspaper
  {
    var source := if a.sourceId.Some? then a.sourceId.value else "Unknown";
    [Newspaper, " *", a.title.value, "*\n\U{1F4CC} Summary: ", SummarizeNews(ArticleText(a), ai),
     "\n\U{1F4CD} ", source, " | \U{1F552} ", a.pubDate.value, "\n\U{1F517} ", a.link.value]
  }

  /** The message block of one article. */
  function ArticleBlock(a: Article, ai: Prompt -> AiReply): (b: string)
    requires MissingKey(a).None?
    ensures |Newspaper| <= |b| && b[..|Newspaper|] == Newspaper
  {
    JoinStartsWithFirst(BlockPieces(a, ai), "");
    Join(BlockPieces(a, ai), "")
  }

  /** What the loop does with one article: its block. It is only asked for
      articles that have every required key. */
  function Renderer(ai: Prompt -> AiReply): Article -> string
  {
    (a: Article) => if MissingKey(a).None? then ArticleBlock(a, ai) else ""
  }

  /** The blocks of the given articles, in order. */
  function Blocks(articles: seq<Article>, render: Article -> string): (bs: seq<string>)
    ensures |bs| == |articles|
  {
    if |articles| == 0 then []
    else Blocks(articles[..|articles| - 1], render) + [render(articles[|articles| - 1])]
  }

  /** Block `k` is the block of article `k`. */
  lemma {:induction false} BlocksAt(articles: seq<Article>, render: Article -> string, k: nat)
    requires k < |articles|
    ensures Blocks(articles, render)[k] == render(articles[k])
    decreases |articles|
  {
    if k < |articles| - 1 {
      BlocksAt(articles[..|articles| - 1], render, k);
    }
  }

  /** `sep.join(parts)`. */
  function Join(parts: seq<string>, sep: string): string
    decreases |parts|
  {
    if |parts| == 0 then ""
    else if |parts| == 1 then parts[0]
    else Join(parts[..|parts| - 1], sep) + sep + parts[|parts| - 1]
  }

  function Min(a: nat, b: nat): nat { if a < b then a else b }

  /** The message for the articles kept from a response: their blocks,
      unless one of them lacks a required key. */
  function ArticlesText(articles: seq<Article>, render: Article -> string): string
  {
    match FirstIndex(articles, LacksKey())
    case Some(i) => ErrorText(MissingKey(articles[i]).value)
    case None => Join(Blocks(articles, render), Separator)
  }

  /** The message for the articles of a successful response: at most the
      first three are used. */
  function Digest(results: seq<Article>, ai: Prompt -> AiReply): string
  {
    ArticlesText(results[..Min(MaxArticles, |results|)], Renderer(ai))
  }

  /** What `get_news_for_topic` returns for a given response. */
  function NewsText(response: NewsResponse, ai: Prompt -> AiReply): string
  {
    match response
    case RequestFailed(error) => ErrorText(error)
    case NewsData(status, results) =>
      if status == Some("success") && |results| > 0 then Digest(results, ai) else NoNewsText
  }

  /** The loop of `get_news_for_topic`: one block per article, in order,
      stopping at the first article that lacks a required key. */
  method RenderArticles(articles: seq<Article>, render: Article -> string) returns (text: string)
    ensures text == ArticlesText(articles, render)
  {
    var messages: seq<string> := [];
    var i := 0;
    while i < |articles|
      invariant 0 <= i <= |articles|
      invariant forall k :: 0 <= k < i ==> !LacksKey()(articles[k])
      invariant messages == Blocks(articles[..i], render)
    {
      var a := articles[i];
      if a.title.None? || a.pubDate.None? || a.link.None? {
        FirstIndexIs(articles, LacksKey(), i);
        return ErrorText(MissingKey(a).value);
      }
      assert articles[..i + 1][..i] == articles[..i];
      messages := messages + [render(a)];
      i := i + 1;
    }
    assert articles[..i] == articles;
    FirstIndexNone(articles, LacksKey());
    text := Join(messages, Separator);
  }

  /** `get_news_for_topic`: query the news API for the topic and build the
      message article by article; it never fails, errors become text. */
  method GetNewsForTopic(topic: Topic, fetch: NewsQuery -> NewsResponse, ai: Prompt -> AiReply)
    returns (text: string)
    ensures text == NewsText(fetch(QueryFor(topic)), ai)
  {
    var response := fetch(QueryFor(topic));
    if response.RequestFailed? {
      return ErrorText(response.error);
    }
    if !(response.status == Some("success") && |response.results| > 0) {
      return NoNewsText;
    }
    text := RenderArticles(response.results[..Min(MaxArticles, |response.results|)], Renderer(ai));
  }

  /** A joined message starts with its first part. */
  lemma {:induction false} JoinStartsWithFirst(parts: seq<string>, sep: string)
    requires |parts| > 0
    ensures |parts[0]| <= |Join(parts, sep)| && Join(parts, sep)[..|parts[0]|] == parts[0]
    decreases |parts|
  {
    if |parts| > 1 {
      JoinStartsWithFirst(parts[..|parts| - 1], sep);
    }
  }

  /** Where part `k` starts in the joined message. */
  function PartOffset(parts: seq<string>, sep: string, k: nat): nat
    requires k < |parts|
    decreases |parts|
  {
    if k == |parts| - 1 then
      if k == 0 then 0 else |Join(parts[..k], sep)| + |sep|
    else PartOffset(parts[..|parts| - 1], sep, k)
  }

  /** Every part appears, intact, in the joined message, at its offset. */
  lemma {:induction false} JoinContainsPart(parts: seq<string>, sep: string, k: nat)
    requires k < |parts|
    ensures var i := PartOffset(parts, sep, k);
            i + |parts[k]| <= |Join(parts, sep)| && Join(parts, sep)[i..i + |parts[k]|] == parts[k]
    decreases |parts|
  {
    if k < |parts| - 1 {
      var front := parts[..|parts| - 1];
      JoinContainsPart(front, sep, k);
      var i := PartOffset(parts, sep, k);
      assert Join(parts, sep)[i..i + |parts[k]|] == Join(front, sep)[i..i + |front[k]|];
    }
  }

  /** The message starts with the newspaper mark exactly when the response
      carried articles and the first three had every required key; an empty,
      unsuccessful or failed response and a missing key start with the
      warning sign instead. */
  lemma NewsTextIsDigestIff(response: NewsResponse, ai: Prompt -> AiReply)
    ensures var text := NewsText(response, ai);
            (|Newspaper| <= |text| && text[..|Newspaper|] == Newspaper)
            <==>
            (&& response.NewsData? && response.status == Some("success") && |response.results| > 0
             && FirstIndex(response.results[..Min(MaxArticles, |response.results|)], LacksKey()).None?)
    ensures var text := NewsText(response, ai);
            !(&& response.NewsData? && response.status == Some("success") && |response.results| > 0
              && FirstIndex(response.results[..Min(MaxArticles, |response.results|)], LacksKey()).None?)
            ==> |Warning| <= |text| && text[..|Warning|] == Warning
  {
    var text := NewsText(response, ai);
    if response.NewsData? && response.status == Some("success") && |response.results| > 0 {
      var articles := response.results[..Min(MaxArticles, |response.results|)];
      if FirstIndex(articles, LacksKey()).None? {
        JoinStartsWithFirst(Blocks(articles, Renderer(ai)), Separator);
        BlocksAt(articles, Renderer(ai), 0);
      } else {
        assert text == ErrorText(MissingKey(articles[FirstIndex(articles, LacksKey()).value]).value);
        assert text[..|Warning|] == Warning;
      }
    } else {
      assert text[..|Warning|] == Warning;
    }
  }

  /** A digest holds one block per article, for at most the first three
      articles, and each block appears intact in the message at its offset. */
  lemma DigestShape(results: seq<Article>, ai: Prompt -> AiReply, k: nat)
    requires |results| > 0
    requires FirstIndex(results[..Min(MaxArticles, |results|)], LacksKey()).None?
    requires k < Min(MaxArticles, |results|)
    ensures MissingKey(results[k]).None?
    ensures var blocks := Blocks(results[..Min(MaxArticles, |results|)], Renderer(ai));
            var text := Digest(results, ai);
            var block := ArticleBlock(results[k], ai);
            var i := PartOffset(blocks, Separator, k);
            && |blocks| == Min(MaxArticles, |results|) && text == Join(blocks, Separator)
            && i + |block| <= |text| && text[i..i + |block|] == block
  {
    var articles := results[..Min(MaxArticles, |results|)];
    assert articles[k] == results[k];
    assert !LacksKey()(articles[k]);
    JoinContainsPart(Blocks(articles, Renderer(ai)), Separator, k);
    BlocksAt(articles, Renderer(ai), k);
  }

  /** The articles after the third have no influence on the digest. */
  lemma DigestIgnoresLaterArticles(results: seq<Article>, ai: Prompt -> AiReply)
    requires |results| > MaxArticles
    ensures Digest(results, ai) == Digest(results[..MaxArticles], ai)
  {
    assert results[..MaxArticles][..Min(MaxArticles, MaxArticles)] == results[..Min(MaxArticles, |results|)];
  }

  // ----- sending -----

  /** A message handed to the WhatsApp transport. */
  datatype OutgoingMessage = OutgoingMessage(to: string, body: string)

  /** What the transport does with a message: a created message with its SID,
      or an exception. */
  datatype TwilioReply = Created(sid: string) | Raised(error: string)

  /** `send_whatsapp_message`: the SID of the created message, or None when
      the transport raised (the exception never escapes). */
  function SendWhatsAppMessage(toNumber: string, message: string,
                               transport: OutgoingMessage -> TwilioReply): (sid: Option<string>)
    ensures var reply := transport(OutgoingMessage("whatsapp:" + toNumber, message));
            (sid.Some? <==> reply.Created?) && (sid.Some? ==> sid.value == reply.sid)
  {
    match transport(OutgoingMessage("whatsapp:" + toNumber, message))
    case Created(sid) => Some(sid)
    case Raised(_) => None
  }

  /** The delivery status: "success" when the SID is truthy (present and
      non-empty), "failed" otherwise. */
  function DeliveryStatus(sid: Option<string>): (status: string)
    ensures status == "success" <==> sid.Some? && sid.value != ""
    ensures status == "success" || status == "failed"
  {
    if sid.Some? && sid.value != "" then "success" else "failed"
  }

  // ----- the delivery task -----

  /** The dictionary the Celery task returns. */
  datatype TaskResult =
    | TaskError(message: string)
    | TaskSucceeded(messageSid: Option<string>, scheduleId: nat, topicId: nat)

  /** The outcome of the Celery task's three lookups: the refusal message, or the
      schedule's row, its topic and the number to send to. */
  datatype Target =
    | Refused(message: string)
    | Found(index: nat, topic: Topic, number: WhatsAppNumber)

  function VerifiedOf(userId: nat): WhatsAppNumber -> bool
  {
    (n: WhatsAppNumber) => n.userId == userId && n.verified
  }

  /** The guard chain of `send_news_updates`: the schedule must exist and be
      active, its topic must exist, and the topic's owner must have a
      verified number; the first verified number is the target. */
  function DeliveryTarget(schedules: seq<Schedule>, topics: seq<Topic>, numbers: seq<WhatsAppNumber>,
                          scheduleId: nat): (t: Target)
    ensures (t == Refused("Schedule not found or inactive")) <==>
              (GetSchedule(schedules, scheduleId).None? || !GetSchedule(schedules, scheduleId).value.active)
    ensures t == Refused("Topic not found") <==>
              (&& GetSchedule(schedules, scheduleId).Some? && GetSchedule(schedules, scheduleId).value.active
               && GetTopic(topics, GetSchedule(schedules, scheduleId).value.topicId).None?)
    ensures t.Refused? ==> t.message in {"Schedule not found or inactive", "Topic not found", "No verified WhatsApp number found"}
    ensures t.Found? ==>
              && t.index < |schedules| && schedules[t.index].id == scheduleId && schedules[t.index].active
              && t.topic in topics && t.topic.id == schedules[t.index].topicId
              && t.number in numbers && t.number.verified && t.number.userId == t.topic.userId
              && First(numbers, VerifiedOf(t.topic.userId)) == Some(t.number)
    ensures t.Refused? && t.message == "No verified WhatsApp number found" ==>
              forall n :: n in numbers && n.userId == GetTopic(topics, GetSchedule(schedules, scheduleId).value.topicId).value.userId
                ==> !n.verified
  {
    match ScheduleIndex(schedules, scheduleId)
    case None => Refused("Schedule not found or inactive")
    case Some(i) =>
      if !schedules[i].active then Refused("Schedule not found or inactive")
      else match GetTopic(topics, schedules[i].topicId)
        case None => Refused("Topic not found")
        case Some(topic) =>
          match First(numbers, VerifiedOf(topic.userId))
          case None => Refused("No verified WhatsApp number found")
          case Some(number) => Found(i, topic, number)
  }

  /** `send_news_updates`: after the guards, fetch the news, send one message
      to the first verified number, stamp `last_run_at` (whether or not the
      send worked) and append one delivery record whose status says whether
      the send produced a SID. A refused run changes nothing and sends nothing. */
  method SendNewsUpdates(db: Database, scheduleId: nat, now: Timestamp,
                         fetch: NewsQuery -> NewsResponse, ai: Prompt -> AiReply,
                         transport: OutgoingMessage -> TwilioReply)
    returns (r: TaskResult, outbox: seq<OutgoingMessage>)
    requires db.Valid()
    modifies db
    ensures db.Valid()
    ensures var target := DeliveryTarget(old(db.schedules), old(db.topics), old(db.numbers), scheduleId);
            target.Refused? ==>
              && r == TaskError(target.message) && outbox == []
              && db.schedules == old(db.schedules) && db.deliveries == old(db.deliveries)
    ensures var target := DeliveryTarget(old(db.schedules), old(db.topics), old(db.numbers), scheduleId);
            target.Found? ==>
              var content := NewsText(fetch(QueryFor(target.topic)), ai);
              var message := OutgoingMessage("whatsapp:" + target.number.phone, content);
              var sid := SendWhatsAppMessage(target.number.phone, content, transport);
              && outbox == [message]
              && db.schedules == old(db.schedules)[target.index := old(db.schedules)[target.index].(lastRunAt := Some(now))]
              && db.deliveries == old(db.deliveries) + [NewsDelivery(scheduleId, DeliveryStatus(sid), sid, content)]
              && r == TaskSucceeded(sid, scheduleId, target.topic.id)
    ensures db.users == old(db.users) && db.numbers == old(db.numbers) && db.topics == old(db.topics)
  {
    var target := DeliveryTarget(db.schedules, db.topics, db.numbers, scheduleId);
    if target.Refused? {
      return TaskError(target.message), [];
    }
    var content := GetNewsForTopic(target.topic, fetch, ai);
    var sid := SendWhatsAppMessage(target.number.phone, content, transport);
    outbox := [OutgoingMessage("whatsapp:" + target.number.phone, content)];
    var schedule := db.schedules[target.index];
    db.schedules := db.schedules[target.index := schedule.(lastRunAt := Some(now))];
    db.deliveries := db.deliveries + [NewsDelivery(schedule.id, DeliveryStatus(sid), sid, content)];
    r := TaskSucceeded(sid, schedule.id, target.topic.id);
  }

  // ----- dispatchers -----

  /** Daily and active, with a time of day that starts with the two-digit hour. */
  function DueDaily(hour: nat): Schedule -> bool
    requires hour < 24
  {
    (s: Schedule) =>
      && s.active && s.frequency == Daily && s.timeOfDay.Some?
      && |TwoDigits(hour)| <= |s.timeOfDay.value| && s.timeOfDay.value[..2] == TwoDigits(hour)
  }

  /** Enqueue one delivery per selected schedule, in order; the loop of both dispatchers. */
  method EnqueueAll(selected: seq<Schedule>) returns (enqueued: seq<nat>, scheduledCount: nat)
    ensures |enqueued| == |selected| == scheduledCount
    ensures forall k :: 0 <= k < |selected| ==> enqueued[k] == selected[k].id
  {
    enqueued := [];
    for i := 0 to |selected|
      invariant |enqueued| == i
      invariant forall k :: 0 <= k < i ==> enqueued[k] == selected[k].id
    {
      enqueued := enqueued + [selected[i].id];
    }
    scheduledCount := |selected|;
  }

  /** `schedule_hourly_updates`: one delivery for every active hourly
      schedule and for no other, and the number enqueued. */
  method ScheduleHourlyUpdates(db: Database) returns (enqueued: seq<nat>, scheduledCount: nat)
    ensures scheduledCount == |enqueued|
    ensures var selected := GetActiveSchedules(db.schedules, Some("hourly"));
            |enqueued| == |selected| && forall k :: 0 <= k < |selected| ==> enqueued[k] == selected[k].id
    ensures forall s :: s in db.schedules && s.active && s.frequency == Hourly ==> s.id in enqueued
    ensures forall id :: id in enqueued ==> exists s :: s in db.schedules && s.id == id && s.active && s.frequency == Hourly
  {
    var selected := GetActiveSchedules(db.schedules, Some("hourly"));
    enqueued, scheduledCount := EnqueueAll(selected);
    forall s | s in db.schedules && s.active && s.frequency == Hourly
      ensures s.id in enqueued
    {
      var k :| 0 <= k < |selected| && selected[k] == s;
      assert enqueued[k] == s.id;
    }
    forall id | id in enqueued
      ensures exists s :: s in db.schedules && s.id == id && s.active && s.frequency == Hourly
    {
      var k :| 0 <= k < |enqueued| && enqueued[k] == id;
      assert selected[k] in selected;
    }
  }

  /** `schedule_daily_updates` at hour `hour` of the clock: one delivery for
      every active daily schedule whose time of day starts with the two-digit
      hour, and for no other, and the number enqueued. */
  method ScheduleDailyUpdates(db: Database, hour: nat) returns (enqueued: seq<nat>, scheduledCount: nat)
    requires hour < 24
    ensures scheduledCount == |enqueued|
    ensures var selected := Filter(db.schedules, DueDaily(hour));
            |enqueued| == |selected| && forall k :: 0 <= k < |selected| ==> enqueued[k] == selected[k].id
    ensures forall s :: s in db.schedules && DueDaily(hour)(s) ==> s.id in enqueued
    ensures forall id :: id in enqueued ==> exists s :: s in db.schedules && s.id == id && DueDaily(hour)(s)
  {
    var selected := Filter(db.schedules, DueDaily(hour));
    enqueued, scheduledCount := EnqueueAll(selected);
    forall s | s in db.schedules && DueDaily(hour)(s)
      ensures s.id in enqueued
    {
      FilterMembership(db.schedules, DueDaily(hour), s);
      var k :| 0 <= k < |selected| && selected[k] == s;
      assert enqueued[k] == s.id;
    }
    forall id | id in enqueued
      ensures exists s :: s in db.schedules && s.id == id && DueDaily(hour)(s)
    {
      var k :| 0 <= k < |enqueued| && enqueued[k] == id;
      FilterMembership(db.schedules, DueDaily(hour), selected[k]);
      assert selected[k] in selected;
    }
  }

  /** The daily dispatcher runs once an hour: a schedule is due at no more
      than one hour of the day, whatever its time of day. */
  lemma DailyDueAtMostOncePerDay(s: Schedule, h: nat, g: nat)
    requires h < 24 && g < 24
    requires DueDaily(h)(s) && DueDaily(g)(s)
    ensures h == g
  {
    TwoDigitsInjective(h, g);
  }

  /** A schedule made with one of the form's "HH:00" times is due exactly at
      hour HH. */
  lemma FormTimeDueExactlyAtItsHour(s: Schedule, h: nat, g: nat)
    requires h < 24 && g < 24
    requires s.active && s.frequency == Daily && s.timeOfDay == Some(TwoDigits(h) + ":00")
    ensures DueDaily(g)(s) <==> g == h
  {
    assert s.timeOfDay.value[..2] == TwoDigits(h);
    TwoDigitsInjective(h, g);
  }
}
