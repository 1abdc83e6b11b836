/** Phase 2 of the pipeline: `summarize_article`. The chat-completion
    service is a boundary, passed in as the optional client; the request
    the function builds and the way it reads the reply are modelled. */
module Summarize {
  import opened NewsTypes

  const ModelName := "gpt-3.5-turbo"
  const NoClientPlaceholder := "Could not summarize."
  const FailurePlaceholder := "Could not summarize article."

  const PromptHead := "\n    Please summarize the following news article snippet in one concise sentence:\n    ---\n    "
  const PromptTail := "\n    ---\n    "

  datatype ChatMessage = ChatMessage(role: string, content: string)
  datatype ChatRequest = ChatRequest(model: string, messages: seq<ChatMessage>)

  /** The reply of `chat.completions.create`: the message content of each
      choice (null for a choice without text), or a raised exception. */
  datatype Completion = Choices(contents: seq<Option<string>>) | CallFailed

  /** The module-level OpenAI client; None when its construction failed. */
  datatype Client = Client(create: ChatRequest -> Completion)

  /** The prompt: a fixed instruction with the snippet between two `---` lines. */
  function Prompt(snippet: string): (p: string)
  {
    PromptHead + snippet + PromptTail
  }

  /** The snippet a prompt carries, for a string shaped like a prompt. */
  function PromptSnippet(p: string): string
    requires |PromptHead| + |PromptTail| <= |p|
  {
    p[|PromptHead|..|p| - |PromptTail|]
  }

  /** The prompt carries the snippet verbatim between the fixed head and tail. */
  lemma PromptCarriesSnippet(snippet: string)
    ensures |Prompt(snippet)| == |PromptHead| + |snippet| + |PromptTail|
    ensures Prompt(snippet)[..|PromptHead|] == PromptHead
    ensures Prompt(snippet)[|PromptHead| + |snippet|..] == PromptTail
    ensures PromptSnippet(Prompt(snippet)) == snippet
  {
    var p := Prompt(snippet);
    assert p[|PromptHead|..|p| - |PromptTail|] == snippet;
  }

  /** The one request sent per summary: one user message holding the prompt. */
  function Request(snippet: string): (q: ChatRequest)
  {
    ChatRequest(ModelName, [ChatMessage("user", Prompt(snippet))])
  }

  /** The request names the model and holds one user message, whose text
      is the prompt carrying the snippet. */
  lemma RequestCarriesPrompt(snippet: string)
    ensures var q := Request(snippet);
      && q.model == "gpt-3.5-turbo"
      && |q.messages| == 1
      && q.messages[0].role == "user"
      && q.messages[0].content == Prompt(snippet)
      && |PromptHead| + |PromptTail| <= |q.messages[0].content|
      && PromptSnippet(q.messages[0].content) == snippet
  {
    PromptCarriesSnippet(snippet);
  }

  /** `summarize_article`: never raises. Without a client it returns the
      short placeholder, when the call fails (or the reply has no choice)
      the long one, and otherwise the first choice's text verbatim, which
      the service may leave null. */
  function SummarizeArticle(snippet: string, client: Option<Client>): (r: Option<string>)
    ensures client.None? ==> r == Some(NoClientPlaceholder)
    ensures client.Some? && client.value.create(Request(snippet)).CallFailed? ==> r == Some(FailurePlaceholder)
    ensures client.Some? && client.value.create(Request(snippet)).Choices? ==>
      var contents := client.value.create(Request(snippet)).contents;
      r == if |contents| == 0 then Some(FailurePlaceholder) else contents[0]
    ensures r.None? ==> client.Some? && client.value.create(Request(snippet)).Choices?
  {
    match client
    case None => Some(NoClientPlaceholder)
    case Some(c) =>
      match c.create(Request(snippet))
      case CallFailed => Some(FailurePlaceholder)
      case Choices(contents) =>
        // `response.choices[0]` on an empty list raises IndexError, caught below it
        if |contents| == 0 then Some(FailurePlaceholder) else contents[0]
  }
}
