# AI news digest pipeline

A model of the daily digest run in `main.py`: fetch the top NewsAPI
headlines for a topic once; stop when nothing came back; otherwise choose a
text for every article (its description, else its content, else nothing),
summarize it through the OpenAI chat-completion service or put a fixed
placeholder in its place, append one formatted block per article to a
greeting header, and hand subject and body to the Gmail relay once.

The three network services are boundaries and enter the model as
parameters:

- The NewsAPI request is represented by its classified outcome
  (`Fetch.HttpOutcome`): a response with a status code and a decoded
  payload, or a request that raised.
- The OpenAI client is optional (`None` when its construction failed).
  Its completion call is a function from the request to a reply
  (`Summarize.Completion`): the choices' message contents, or a raised
  exception.
- The mail relay is represented by the one call of `send_email` and the
  framed message it is given (`Digest.RunDigest` returns that list of
  messages as `sent`). Whether the message then reaches the relay is not
  modelled. The list of texts handed to `summarize_article` is returned
  beside it.

Modules:

- `NewsTypes`: optional JSON fields, articles, Python truthiness, and f-string
  rendering of `None`.
- `Text`: decimal ordinals with their parser; the concatenation of parts.
- `Fetch`: the decision of `fetch_top_articles`.
- `Summarize`: the request and reply handling of `summarize_article`.
- `Email`: the message framing of `send_email`, with the reading that
  splits the Subject line from the body.
- `Digest`: the `main()` loop. It is specified by the layout of the body:
  the header, then the concatenation of one block per article. The loop
  invariant says that after `n` passes the text is the header followed by
  the first `n` blocks (`Compose`).

## Model

| member | source | states |
|---|---|---|
| Fetch.FetchTopArticles | main.py:35-51 | The articles come back only for HTTP 200 with API status "ok" (a missing or null `articles` value gives the empty list). A non-200 status, another API status, a non-object or undecodable payload, or a raised request all give the empty list. A non-empty result implies acceptance. |
| Summarize.SummarizeArticle | main.py:57-85 | With no client the result is "Could not summarize.". When the completion call raises, or the reply has no choice, it is "Could not summarize article.". Otherwise it is the first choice's content verbatim, which may be null. Nothing is raised. |
| Summarize.PromptCarriesSnippet | main.py:67-72 | The prompt is the fixed instruction head, the snippet verbatim, and the fixed tail. The snippet reads back out of the prompt. |
| Email.FrameMessageLayout | main.py:104 | The message is `Subject: `, the subject, a blank line, then the body to the end. |
| Summarize.RequestCarriesPrompt | main.py:67-80 | The request names the model "gpt-3.5-turbo" and holds exactly one message. That message has role "user", and its text is exactly the prompt: the fixed instruction head, the snippet, and the fixed tail. The snippet reads back out of it. |
| NewsTypes.FalsyStrings | main.py:148-150 | Python's `or` and `not` treat a missing string and "" alike as false, and every other string as true. |
| NewsTypes.RenderPrintsNone | main.py:156-158 | An f-string prints a present string as itself and a missing one as `None`. So a field holding the text "None" prints like a missing field. |
| Digest.HeaderLayout | main.py:136-137 | The header is the greeting naming the topic, then a rule of 41 '=' and a blank line. |
| Digest.BlockLayout | main.py:156-159 | A block is the four f-string lines of the loop body: `ARTICLE <i+1>: <title>`, `SUMMARY: <summary>`, `LINK: <url>` with a blank line, then 41 '-' and a blank line. A missing field prints as `None`. |
| Digest.SubjectLayout | main.py:166 | The subject is "Your Daily AI News Report - " followed by the topic. It holds a line break only when the topic does. |
| Email.ParseFramedMessage | main.py:104 | A message framed as `Subject: <subject>\n\n<body>` reads back as exactly that subject and body when the subject holds no line break. |
| Email.FrameParsedMessage | main.py:104 | Conversely, every text that reads as (subject, body) is the framing of that subject and body. |
| Digest.ContentToSummarize | main.py:148 | The text is the description when it is present and non-empty. Otherwise it is the content when that is present and non-empty. The text is empty exactly when neither is. |
| Digest.ArticleSummary | main.py:150-153 | An empty text gets "No content available to summarize.". A non-empty text gets `summarize_article` applied to it. |
| Digest.NoTextNoSummarizerCall | main.py:148-153 | An article with neither description nor content gets the placeholder whatever the client does. It adds no call to the summarizer. |
| Digest.SummarizerInputs | main.py:148-153 | The summarizer is called at most `n` times for `n` articles, and never with an empty text. |
| Digest.AtMostOneCallPerPass | main.py:148-153 | Each pass of the loop only appends to the summarizer trace, and at most one text: the summarizer is called at most once per article. |
| Digest.DescriptionReachesSummarizer | main.py:148-153 | The pass over an article with a non-empty description makes exactly one summarizer call, and that call receives the description, not the content. The description stays in the trace of every later pass. |
| Digest.AppendArticle | main.py:139-159 | One pass appends the article's four lines (ordinal and title, summary, link, separator). What was the header and the first `i` blocks becomes the header and the first `i + 1` blocks. The summarizer trace grows only when the text is non-empty. |
| Digest.ComposeBody | main.py:135-159 | The loop builds exactly the body: the greeting and the rule line, then one block per article, in the fetched order. It calls the summarizer with exactly `SummarizerInputs`. |
| Digest.RunDigest | main.py:123-167 | An empty fetched list returns with no summarizer call and no call of `send_email`. Otherwise `send_email` is called exactly once, after the whole body is built, with the framing of "Your Daily AI News Report - artificial intelligence" and that body. |
| Digest.BodyIsOneBlockPerArticle | main.py:139-159 | The body has exactly one block per fetched article: the block count equals the article count. Block `k` carries article `k`'s ordinal, title, summary and URL. |
| Digest.ComposeIsPrefixOfBody | main.py:139-159 | What is written after `n` passes is a prefix of the final body: later passes only append. |
| Digest.BlockInBody | main.py:139-159 | Block `i` is found in the body right after the header and the blocks of articles `0..i-1`. |
| Digest.BlockOrdinal | main.py:156 | Every block opens with `ARTICLE <i+1>: `, and that ordinal reads back as `i + 1`: ordinals are 1-based and consecutive. |
| Digest.MainRunMessageReadsBack | main.py:166-167 | The message `main()` sends reads back as the subject "Your Daily AI News Report - artificial intelligence" and the body. |
| Digest.SentMessageReadsBack | main.py:104 | With a topic that holds no line break, the message `send_email` frames reads back as the subject "Your Daily AI News Report - <topic>" and the body. |
| Digest.TwoArticleRunCalls | main.py:123-153 | A run with two fetched articles: the first with description "d1", the second with an empty description and an empty content. The fetch hands the list back, and the summarizer is called once, with "d1". |
| Digest.TwoArticleBlocks | main.py:139-159 | In that run, with a service that always answers "S1", block 1 carries the summary "S1" and block 2 the placeholder, in that order. |
| Digest.TwoArticleRun | main.py:136-159 | The body of that run is the header followed by those two blocks. |
| Text.Decimal | main.py:156 | `str(i+1)` is a non-empty string of digits with no leading zero (it starts with '0' only for zero). |
| Text.ParseDecimalOfDecimal | main.py:156 | Reading the decimal form of `n` gives back `n`. |
| Text.DecimalInjective | main.py:156 | Distinct ordinals have distinct decimal forms, so no two blocks carry the same ordinal. |

## Left out

- The NewsAPI request: URL construction (main.py:28-31), `requests.get` and
  `response.json()` are I/O. Only their classified outcome is modelled.
  The `article_count` parameter only reaches the URL, so it does not appear.
- Article objects are modelled with their four string-or-null keys.
  Non-object list items and non-string field values are not modelled.
- An `articles` value that is not a list is not modelled.
  - A number or a boolean makes `len` at main.py:41 raise, and the handler
    returns `[]`.
  - An empty string or an empty object is returned as is, and `main()`
    exits at main.py:129-131 without sending.
  - A non-empty string or object crashes `main()` at `article.get`
    (main.py:143).
  A null `articles` value is modelled: `len(None)` raises at main.py:41,
  the handler at main.py:49-51 returns `[]`, and `Fetch.FetchTopArticles`
  returns `[]` in that case.
- The OpenAI client's construction (main.py:10-17) is reduced to "present or
  absent". The completion service is a function. So two identical
  requests get the same reply, whereas the real service may answer
  differently each time.
- `send_email`'s SMTP-over-SSL session (main.py:109-116) is transport I/O.
  The connection and the login (main.py:110-111) can raise. The handler at
  main.py:115-116 then prints the error and swallows it, and
  `server.sendmail` (main.py:112) never runs, so nothing reaches the relay.
  A failure of `sendmail` itself is swallowed the same way. `sent` records
  the call of `send_email` with its framed message, not whether the
  connection, the login or the delivery succeeded.
- The UTF-8 encoding of the message (main.py:104) is not modelled. It runs
  before the `try` at main.py:109, so an encoding failure ends the run
  uncaught, before anything reaches the relay. Such a failure needs a
  string holding a lone surrogate, which a Dafny `char` cannot hold; such
  strings are outside the model.
- All `print` diagnostics (including the final echo of the body, main.py:161-163)
  carry no behaviour.
- `step1_fetch.py`, `step2_summarize.py` and `step3_email.py` are
  stand-alone variants of the three phases and are not part of this model.
- The run's topic is fixed to `MainTopic` ("artificial intelligence"), as in
  `main()`. The composition functions take any topic as a parameter.
- Two behaviours of the code are worth noting.
  - With no client, `summarize_article` returns "Could not summarize.",
    not the longer placeholder used for a failed call.
  - A reply whose first choice carries a null message content is returned
    as null, so that article's summary line reads `SUMMARY: None`.
