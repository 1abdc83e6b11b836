/** The digest run of `main()`: fetch once, stop when nothing came back,
    otherwise summarize every article in order, append one formatted block
    per article to the body, and call `send_email` with subject and body
    once. The boundaries are parameters: the outcome of the NewsAPI
    request, the optional chat-completion client, and the send boundary,
    which is modelled by the list of messages `send_email` is called
    with (whether the relay then receives one is not modelled). */
module Digest {
  import opened NewsTypes
  import opened Text
  import opened Fetch
  import opened Summarize
  import opened Email

  /** The topic `main()` runs with. */
  const MainTopic := "artificial intelligence"

  /** The line under the greeting: 41 '=' and a blank line. */
  const Rule := Repeat('=', 41) + "\n\n"
  /** The line closing every block: 41 '-' and a blank line. */
  const Separator := Repeat('-', 41) + "\n\n"

  const NoContentPlaceholder := "No content available to summarize."

  /** The first line of the body, naming the topic. */
  function Greeting(topic: string): string
  {
    "Here is your AI News update for " + topic + ":\n"
  }

  /** The opening of the body: the greeting, then the rule line and a blank line. */
  function Header(topic: string): string
  {
    Greeting(topic) + Rule
  }

  function Subject(topic: string): string
  {
    "Your Daily AI News Report - " + topic
  }

  /** The header: the greeting naming the topic, a rule of 41 '=' and a
      blank line. */
  lemma HeaderLayout(topic: string)
    ensures var h := Header(topic);
      var g := |Greeting(topic)|;
      && IsPrefix("Here is your AI News update for " + topic + ":\n", h)
      && |h| == g + 43
      && (forall k :: g <= k < g + 41 ==> h[k] == '=')
      && h[g + 41..] == "\n\n"
  {
    var h := Header(topic);
    var g := |Greeting(topic)|;
    assert h[..g] == Greeting(topic);
    assert h[g..] == Rule;
  }

  /** The subject: the fixed title, then the topic; it holds a line break
      only when the topic does. */
  lemma SubjectLayout(topic: string)
    ensures var s := Subject(topic);
      && |s| == 28 + |topic|
      && s[..28] == "Your Daily AI News Report - "
      && s[28..] == topic
      && ('\n' in s <==> '\n' in topic)
  {
    var s := Subject(topic);
    assert s[28..] == topic;
    if '\n' in s {
      var k :| 0 <= k < |s| && s[k] == '\n';
      assert k >= 28;
      assert topic[k - 28] == '\n';
    }
  }

  /** `article.get('description') or article.get('content') or ""`. */
  function ContentToSummarize(a: Article): (r: string)
    ensures Truthy(a.description) ==> r == a.description.value
    ensures !Truthy(a.description) && Truthy(a.content) ==> r == a.content.value
    ensures r == "" <==> !Truthy(a.description) && !Truthy(a.content)
  {
    if Truthy(a.description) then a.description.value
    else if Truthy(a.content) then a.content.value
    else ""
  }

  /** The summary an article gets: the fixed placeholder when there is no
      text, without consulting the client; otherwise `summarize_article`
      applied to the chosen text. */
  function ArticleSummary(a: Article, client: Option<Client>): (r: Option<string>)
    ensures ContentToSummarize(a) == "" ==> r == Some(NoContentPlaceholder)
    ensures ContentToSummarize(a) != "" ==> r == SummarizeArticle(ContentToSummarize(a), client)
  {
    var text := ContentToSummarize(a);
    if text == "" then Some(NoContentPlaceholder) else SummarizeArticle(text, client)
  }

  /** How the block of the article at 0-based position `i` opens: its 1-based ordinal. */
  function Opening(i: nat): string
  {
    "ARTICLE " + Decimal(i + 1) + ": "
  }

  function TitleLine(i: nat, title: Option<string>): string
  {
    Opening(i) + Render(title) + "\n"
  }

  function SummaryLine(summary: Option<string>): string
  {
    "SUMMARY: " + Render(summary) + "\n"
  }

  function LinkLine(url: Option<string>): string
  {
    "LINK: " + Render(url) + "\n\n"
  }

  /** The block written for the article at 0-based position `i`. */
  function Block(i: nat, title: Option<string>, summary: Option<string>, url: Option<string>): string
  {
    TitleLine(i, title) + SummaryLine(summary) + LinkLine(url) + Separator
  }

  /** The block is the four f-string lines of the loop body: the 1-based
      ordinal and the title, the summary, the link and a blank line, then
      41 '-' and a blank line; a missing field prints as `None`. */
  lemma BlockLayout(i: nat, title: Option<string>, summary: Option<string>, url: Option<string>)
    ensures Block(i, title, summary, url)
      == "ARTICLE " + Decimal(i + 1) + ": " + Render(title) + "\n"
         + "SUMMARY: " + Render(summary) + "\n"
         + "LINK: " + Render(url) + "\n\n"
         + Repeat('-', 41) + "\n\n"
  {
    Flatten(Opening(i), Render(title), "\n", "SUMMARY: ", Render(summary), "\n",
      "LINK: ", Render(url), "\n\n", Repeat('-', 41), "\n\n");
  }

  lemma Flatten(a: string, b: string, c: string, d: string, e: string, f: string,
                g: string, h: string, k: string, m: string, n: string)
    ensures (a + b + c) + (d + e + f) + (g + h + k) + (m + n) == a + b + c + d + e + f + g + h + k + m + n
  {
  }

  function ArticleBlock(articles: seq<Article>, i: nat, client: Option<Client>): string
    requires i < |articles|
  {
    Block(i, articles[i].title, ArticleSummary(articles[i], client), articles[i].url)
  }

  /** The blocks of a run: entry `i` is the block of article `i`. */
  function BlockList(articles: seq<Article>, client: Option<Client>): seq<string>
  {
    seq(|articles|, i => if 0 <= i < |articles| then ArticleBlock(articles, i, client) else "")
  }

  /** The email text once the first `n` articles have been written: the
      header, then the blocks of those articles in order. */
  function Compose(topic: string, articles: seq<Article>, n: nat, client: Option<Client>): string
    requires n <= |articles|
  {
    Header(topic) + Concat(BlockList(articles, client)[..n])
  }

  /** The email body: the header, then one block per article in order. */
  function Body(topic: string, articles: seq<Article>, client: Option<Client>): string
  {
    Header(topic) + Concat(BlockList(articles, client))
  }

  /** The texts handed to `summarize_article` for the first `n` articles, in
      order: one per article that has text, none for one that has not. */
  function SummarizerInputs(articles: seq<Article>, n: nat): (r: seq<string>)
    requires n <= |articles|
    ensures |r| <= n
    ensures forall k :: 0 <= k < |r| ==> r[k] != ""
  {
    if n == 0 then []
    else
      var text := ContentToSummarize(articles[n - 1]);
      SummarizerInputs(articles, n - 1) + (if text == "" then [] else [text])
  }

  /** The body-building loop of `main()` for a non-empty article list:
      the header, then one block per article appended in order. Returns
      the body and the texts given to `summarize_article`. */
  method ComposeBody(topic: string, articles: seq<Article>, client: Option<Client>)
    returns (body: string, summarized: seq<string>)
    ensures body == Body(topic, articles, client)
    ensures summarized == SummarizerInputs(articles, |articles|)
  {
    var emailContent := Greeting(topic);
    emailContent := emailContent + Rule;
    summarized := [];
    assert BlockList(articles, client)[..0] == [];

    var i := 0;
    while i < |articles|
      invariant 0 <= i <= |articles|
      invariant emailContent == Compose(topic, articles, i, client)
      invariant summarized == SummarizerInputs(articles, i)
    {
      emailContent, summarized := AppendArticle(topic, articles, i, client, emailContent, summarized);
      i := i + 1;
    }
    assert BlockList(articles, client)[..i] == BlockList(articles, client);
    body := emailContent;
  }

  /** One pass of the loop: choose the text, summarize it unless it is
      empty, and append the article's four lines. */
  method AppendArticle(topic: string, articles: seq<Article>, i: nat, client: Option<Client>,
                       emailContent: string, summarized: seq<string>)
    returns (emailContent': string, summarized': seq<string>)
    requires i < |articles|
    requires emailContent == Compose(topic, articles, i, client)
    requires summarized == SummarizerInputs(articles, i)
    ensures emailContent' == Compose(topic, articles, i + 1, client)
    ensures summarized' == SummarizerInputs(articles, i + 1)
  {
    var article := articles[i];
    var title := article.title;
    var url := article.url;
    var text := ContentToSummarize(article);
    var summary;
    summarized' := summarized;
    if text == "" {
      summary := Some(NoContentPlaceholder);
    } else {
      summary := SummarizeArticle(text, client);
      summarized' := summarized' + [text];
    }
    emailContent' := emailContent + TitleLine(i, title);
    emailContent' := emailContent' + SummaryLine(summary);
    emailContent' := emailContent' + LinkLine(url);
    emailContent' := emailContent' + Separator;
    BlockListAt(articles, i, client);
    AppendPart(Header(topic), BlockList(articles, client), i, emailContent,
      TitleLine(i, title), SummaryLine(summary), LinkLine(url), Separator);
  }

  /** `main()` with its boundaries as parameters: the topic is `MainTopic`.
      Returns the texts given to `summarize_article` and the framed
      messages `send_email` is called with. */
  method RunDigest(fetched: HttpOutcome, client: Option<Client>)
    returns (summarized: seq<string>, sent: seq<string>)
    ensures FetchTopArticles(fetched) == [] ==> summarized == [] && sent == []
    ensures FetchTopArticles(fetched) != [] ==>
      var articles := FetchTopArticles(fetched);
      && summarized == SummarizerInputs(articles, |articles|)
      && sent == [FrameMessage(Subject(MainTopic), Body(MainTopic, articles, client))]
  {
    summarized, sent := [], [];
    var articles := FetchTopArticles(fetched);
    if articles == [] {
      return;
    }
    var emailContent;
    emailContent, summarized := ComposeBody(MainTopic, articles, client);
    var subject := Subject(MainTopic);
    sent := sent + [FrameMessage(subject, emailContent)];
  }

  /** Appending four lines one after another appends them as one part. */
  lemma AppendPart(h: string, parts: seq<string>, i: nat, before: string, a: string, b: string, c: string, d: string)
    requires i < |parts| && parts[i] == a + b + c + d
    requires before == h + Concat(parts[..i])
    ensures before + a + b + c + d == h + Concat(parts[..i + 1])
  {
    ConcatSnoc(parts, i);
  }

  /** Entry `k` of the block list, line by line. */
  lemma BlockListAt(articles: seq<Article>, k: nat, client: Option<Client>)
    requires k < |articles|
    ensures BlockList(articles, client)[k]
      == TitleLine(k, articles[k].title) + SummaryLine(ArticleSummary(articles[k], client))
         + LinkLine(articles[k].url) + Separator
  {
  }

  /** The body holds exactly one block per article, none dropped and none
      added, and block `k` is written from article `k`. */
  lemma BodyIsOneBlockPerArticle(articles: seq<Article>, client: Option<Client>)
    ensures |BlockList(articles, client)| == |articles|
    ensures forall k :: 0 <= k < |articles| ==>
      BlockList(articles, client)[k] == Block(k, articles[k].title, ArticleSummary(articles[k], client), articles[k].url)
  {
    forall k | 0 <= k < |articles| {
      BlockListAt(articles, k, client);
    }
  }

  /** What the loop has written after `n` articles is never rewritten by
      the later passes: it is a prefix of the final body. */
  lemma ComposeIsPrefixOfBody(topic: string, articles: seq<Article>, n: nat, client: Option<Client>)
    requires n <= |articles|
    ensures IsPrefix(Compose(topic, articles, n, client), Body(topic, articles, client))
  {
    var list := BlockList(articles, client);
    ConcatGrows(list, n);
    PrefixBehind(Header(topic), Concat(list[..n]), Concat(list));
  }

  /** Block `i` sits in the body right after the header and the blocks of
      the articles before it. */
  lemma BlockInBody(topic: string, articles: seq<Article>, i: nat, client: Option<Client>)
    requires i < |articles|
    ensures var list := BlockList(articles, client);
      var start := |Header(topic)| + |Concat(list[..i])|;
      && start + |list[i]| <= |Body(topic, articles, client)|
      && Body(topic, articles, client)[start..start + |list[i]|] == list[i]
  {
    ConcatSlotAfter(Header(topic), BlockList(articles, client), i);
  }

  /** Every block opens with `ARTICLE <i+1>: `, and that ordinal reads
      back as i + 1: ordinals start at 1 and are consecutive. */
  lemma BlockOrdinal(i: nat, title: Option<string>, summary: Option<string>, url: Option<string>)
    ensures IsPrefix("ARTICLE " + Decimal(i + 1) + ": ", Block(i, title, summary, url))
    ensures ParseDecimal(Decimal(i + 1)) == i + 1
  {
    PrefixOfAppends(Opening(i), Render(title), "\n", SummaryLine(summary), LinkLine(url), Separator);
    ParseDecimalOfDecimal(i + 1);
  }

  lemma PrefixOfAppends(p: string, a: string, b: string, c: string, d: string, e: string)
    ensures IsPrefix(p, p + a + b + c + d + e)
  {
    assert p + a + b + c + d + e == p + (a + b + c + d + e);
  }

  /** Each pass only appends to the summarizer trace, and at most one text:
      `summarize_article` is called at most once per article. */
  lemma AtMostOneCallPerPass(articles: seq<Article>, n: nat)
    requires 0 < n <= |articles|
    ensures SummarizerInputs(articles, n - 1) <= SummarizerInputs(articles, n)
    ensures |SummarizerInputs(articles, n)| <= |SummarizerInputs(articles, n - 1)| + 1
  {
  }

  /** An article with no text gets the placeholder whatever the client,
      and contributes no summarizer call. */
  lemma NoTextNoSummarizerCall(articles: seq<Article>, i: nat, client: Option<Client>, other: Option<Client>)
    requires i < |articles|
    requires !Truthy(articles[i].description) && !Truthy(articles[i].content)
    ensures ArticleSummary(articles[i], client) == ArticleSummary(articles[i], other) == Some(NoContentPlaceholder)
    ensures SummarizerInputs(articles, i + 1) == SummarizerInputs(articles, i)
  {
  }

  /** The pass over an article with a description makes exactly one
      summarizer call, and that call receives the description, not the
      content; the description stays in the trace of every later pass. */
  lemma {:induction false} DescriptionReachesSummarizer(articles: seq<Article>, i: nat, n: nat)
    requires i < n <= |articles|
    requires Truthy(articles[i].description)
    ensures SummarizerInputs(articles, i + 1) == SummarizerInputs(articles, i) + [articles[i].description.value]
    ensures articles[i].description.value in SummarizerInputs(articles, n)
    decreases n
  {
    DescriptionPass(articles, i);
    if i < n - 1 {
      DescriptionReachesSummarizer(articles, i, n - 1);
    }
  }

  lemma DescriptionPass(articles: seq<Article>, i: nat)
    requires i < |articles|
    requires Truthy(articles[i].description)
    ensures SummarizerInputs(articles, i + 1) == SummarizerInputs(articles, i) + [articles[i].description.value]
  {
  }

  /** With a topic that holds no line break, the message `send_email`
      frames reads back as the run's subject and body. */
  lemma SentMessageReadsBack(topic: string, articles: seq<Article>, client: Option<Client>)
    requires '\n' !in topic
    ensures ParseMessage(FrameMessage(Subject(topic), Body(topic, articles, client)))
      == Some((Subject(topic), Body(topic, articles, client)))
  {
    assert '\n' !in Subject(topic);
    ParseFramedMessage(Subject(topic), Body(topic, articles, client));
  }

  /** The message of the run in `main()` reads back as its subject and body. */
  lemma MainRunMessageReadsBack(articles: seq<Article>, client: Option<Client>)
    ensures ParseMessage(FrameMessage(Subject(MainTopic), Body(MainTopic, articles, client)))
      == Some((Subject(MainTopic), Body(MainTopic, articles, client)))
  {
    SentMessageReadsBack(MainTopic, articles, client);
  }

  /** Two fetched articles: the first with a description, the second with
      an empty description and an empty content. */
  function TwoArticles(): seq<Article>
  {
    [Article(Some("X"), Some("u1"), Some("d1"), None),
     Article(Some("Y"), Some("u2"), Some(""), Some(""))]
  }

  /** A service that always answers "S1". */
  function EchoClient(): Option<Client>
  {
    Some(Client(q => Choices([Some("S1")])))
  }

  /** The run over `TwoArticles`: the fetch hands the list back and one
      summarizer call is made, with the first description. */
  lemma TwoArticleRunCalls()
    ensures FetchTopArticles(Response(200, JsonObject(Some("ok"), Some(TwoArticles())))) == TwoArticles()
    ensures SummarizerInputs(TwoArticles(), 2) == ["d1"]
  {
  }

  /** The blocks of that run, in order: the first carries the service's
      answer, the second the placeholder. */
  lemma TwoArticleBlocks()
    ensures BlockList(TwoArticles(), EchoClient())
      == [Block(0, Some("X"), Some("S1"), Some("u1")), Block(1, Some("Y"), Some(NoContentPlaceholder), Some("u2"))]
  {
  }

  /** The body of that run is the header followed by those two blocks. */
  lemma TwoArticleRun()
    ensures Body(MainTopic, TwoArticles(), EchoClient())
      == Header(MainTopic) + Block(0, Some("X"), Some("S1"), Some("u1"))
         + Block(1, Some("Y"), Some(NoContentPlaceholder), Some("u2"))
  {
    TwoArticleBlocks();
    BodyOfTwo(MainTopic, TwoArticles(), EchoClient());
  }

  /** With two articles the body is the header and their two blocks. */
  lemma BodyOfTwo(topic: string, articles: seq<Article>, client: Option<Client>)
    requires |articles| == 2
    ensures var list := BlockList(articles, client);
      Body(topic, articles, client) == Header(topic) + list[0] + list[1]
  {
    var list := BlockList(articles, client);
    ConcatOfTwo(list);
    AppendAssoc(Header(topic), list[0], list[1]);
  }

  lemma AppendAssoc(a: string, b: string, c: string)
    ensures a + b + c == a + (b + c)
  {
  }
}
