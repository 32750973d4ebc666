/** The AI summary (src/services/aiService.ts): renders a tool's result as
    indented JSON, cuts it to 3000 characters, embeds it in a prompt, asks
    the chat-completion service for a summary and tidies the reply. */
module AiSummary {
  import opened Js

  const ModelName := "gpt-40"
  const SystemPrompt := "You are a Security Scan summarizer."
  const Temperature: real := 0.3
  const MaxTokens: nat := 500

  /** At most this many characters of the rendered result reach the prompt. */
  const MaxRawText: nat := 3000

  /** The reply when the service gives no usable text. */
  const NoSummary := "No summary available"

  /** The fixed text of the prompt template around the tool name and the
      rendered result. */
  const PromptHead := "\n  You Are a cybersecurity assistant. Summarize the scan results below from "
  const PromptMiddle := " in clear, simple, human-readable terms.\n   Avoid jargon, explain risks, and provide actionable advice if possible.\n  Scan Output:\n  ```json\n  "
  const PromptTail := "\n  ```\n  Summar:\n"

  datatype Message = Message(role: string, content: string)

  /** The chat-completion request. */
  datatype ChatRequest = ChatRequest(model: string, messages: seq<Message>, temperature: real, maxTokens: nat)

  /** One choice of the service's reply: `message.content`, which may be
      `null`. */
  datatype Choice = Choice(content: Option<string>)

  /** `text.slice(0, 3000)`. */
  function RawText(rendered: string): (r: string)
    ensures |r| <= MaxRawText
    ensures r <= rendered
    ensures |rendered| <= MaxRawText ==> r == rendered
    ensures |rendered| > MaxRawText ==> |r| == MaxRawText
  {
    if |rendered| <= MaxRawText then rendered else rendered[..MaxRawText]
  }

  function Prompt(toolName: string, rawText: string): string
  {
    PromptHead + toolName + PromptMiddle + rawText + PromptTail
  }

  /** The request: a fixed system message, then the prompt as the user's
      message. */
  function Request(toolName: string, rendered: string): (req: ChatRequest)
    ensures req.model == ModelName && req.temperature == Temperature && req.maxTokens == MaxTokens
    ensures |req.messages| == 2
    ensures req.messages[0] == Message("system", SystemPrompt)
    ensures req.messages[1].role == "user"
    ensures Contains(req.messages[1].content, toolName)
    ensures Contains(req.messages[1].content, RawText(rendered))
  {
    PromptMentions(toolName, RawText(rendered));
    ChatRequest(ModelName, [Message("system", SystemPrompt), Message("user", Prompt(toolName, RawText(rendered)))],
                Temperature, MaxTokens)
  }

  /** The prompt names the tool and carries the rendered result. */
  lemma PromptMentions(toolName: string, rawText: string)
    ensures Contains(Prompt(toolName, rawText), toolName)
    ensures Contains(Prompt(toolName, rawText), rawText)
  {
    var p := Prompt(toolName, rawText);
    OccursInMiddle(PromptHead, toolName, PromptMiddle + rawText + PromptTail);
    assert p == PromptHead + toolName + (PromptMiddle + rawText + PromptTail);
    OccursInMiddle(PromptHead + toolName + PromptMiddle, rawText, PromptTail);
    assert p == PromptHead + toolName + PromptMiddle + rawText + PromptTail;
  }

  /** `choices[0]?.message.content?.trim() || 'No summary available'`. */
  function ReplyText(choices: seq<Choice>): (r: string)
    // never blank, and never with white space at either end
    ensures r != "" && !IsJsSpace(r[0]) && !IsJsSpace(r[|r| - 1])
    ensures r == NoSummary || (|choices| > 0 && choices[0].content.Some? && r == Trim(choices[0].content.value))
    ensures |choices| > 0 && choices[0].content.Some? && !IsBlank(choices[0].content.value) ==>
              r == Trim(choices[0].content.value)
    ensures |choices| == 0 || choices[0].content.None? || IsBlank(choices[0].content.value) ==> r == NoSummary
  {
    if |choices| > 0 && choices[0].content.Some? && Trim(choices[0].content.value) != "" then
      Trim(choices[0].content.value)
    else NoSummary
  }

  /** `summarizeWithAI(toolName, rawResult)`. `render` is `JSON.stringify(_,
      null, 2)` and `complete` the chat-completion service, whose failure
      propagates unchanged. */
  function Summarize<E>(toolName: string, rawResult: Json, render: Json -> string,
                        complete: ChatRequest -> Result<seq<Choice>, E>): (r: Result<string, E>)
    ensures complete(Request(toolName, render(rawResult))).Err? ==>
              r == Err(complete(Request(toolName, render(rawResult))).error)
    ensures complete(Request(toolName, render(rawResult))).Ok? ==>
              r == Ok(ReplyText(complete(Request(toolName, render(rawResult))).value))
    ensures r.Ok? ==> !IsBlank(r.value)
  {
    match complete(Request(toolName, render(rawResult)))
    case Err(e) => Err(e)
    case Ok(choices) => Ok(ReplyText(choices))
  }

  /** Two results whose renderings agree on their first 3000 characters
      produce the same request: the rest never reaches the service. */
  lemma OnlyThePrefixMatters(toolName: string, rendered1: string, rendered2: string)
    requires |rendered1| >= MaxRawText && |rendered2| >= MaxRawText
    requires rendered1[..MaxRawText] == rendered2[..MaxRawText]
    ensures Request(toolName, rendered1) == Request(toolName, rendered2)
  {
    assert RawText(rendered1) == rendered1[..MaxRawText];
    assert RawText(rendered2) == rendered2[..MaxRawText];
  }
}
