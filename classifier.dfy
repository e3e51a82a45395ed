/**
  `detect_category_and_subcategory`: one chat call over the first 3000 characters of the
  article, the reply cleaned and parsed as JSON, and a fixed fallback when parsing fails.
 */
module Classifier {
  import opened Wrappers
  import opened PyStrings
  import opened Chat

  /** A parsed JSON object, with its values read as strings. */
  type JsonObject = map<string, string>

  /** The JSON parser, abstract: `None` is any parse failure. */
  type JsonParser = string -> Option<JsonObject>


  const ClassifySystem := "Classify article into category, subcategory, and emotion."

  /** The prompt text before the embedded article (after the outer `strip()`). */
  const PromptHead :=
    "You are an expert news analyst.\n\n"
    + "Analyze the following news article and return:\n\n"
    + "1. category\n2. subcategory\n3. emotion\n\n"
    + "Article:\n\"\"\""

  /** The prompt text after the embedded article (after the outer `strip()`). */
  const PromptTail :=
    "\"\"\"\n\nReturn as JSON:\n"
    + "{\n  \"category\": \"...\",\n  \"subcategory\": \"...\",\n  \"emotion\": \"...\"\n"
    + "}"

  /** The result used whenever the reply does not parse. */
  const Fallback: JsonObject := map["category" := "Unknown", "subcategory" := "General", "emotion" := "Neutral"]

  /** The user message: the fixed head, `text[:3000]` and the fixed tail (see
      `ClassifyPromptIsStrippedTemplate` for how this follows from the template). */
  function ClassifyPrompt(text: string): string {
    PromptHead + Take(text, ArticleLimit) + PromptTail
  }

  function ClassifyRequest(text: string): ChatRequest {
    ChatRequest(ChatModel, ClassifySystem, ClassifyPrompt(text))
  }

  /** The source builds the message as a triple-quoted template that opens and closes with a
      line feed and then calls `strip()`; that strip removes only those two line feeds, so
      the message is exactly head, truncated article, tail. */
  lemma ClassifyPromptIsStrippedTemplate(text: string)
    ensures Strip("\n" + PromptHead + Take(text, ArticleLimit) + PromptTail + "\n", None) == ClassifyPrompt(text)
    ensures |Take(text, ArticleLimit)| <= ArticleLimit
  {
    var body := ClassifyPrompt(text);
    assert PromptHead[0] == 'Y';
    assert body[0] == PromptHead[0] && body[|body| - 1] == PromptTail[|PromptTail| - 1] == '}';
    assert "\n" + PromptHead + Take(text, ArticleLimit) + PromptTail + "\n" == "\n" + body + "\n";
    StripAround("\n", body, "\n", None);
  }

  /** The parsed reply, or the fallback when the cleaned reply does not parse. */
  function DetectCategoryAndSubcategory(text: string, llm: Llm, parse: JsonParser): (r: JsonObject)
    ensures parse(CleanReply(llm(ClassifyRequest(text)))).None? ==> r == Fallback
    ensures parse(CleanReply(llm(ClassifyRequest(text)))).Some? ==> r == parse(CleanReply(llm(ClassifyRequest(text)))).value
  {
    match parse(CleanReply(llm(ClassifyRequest(text))))
    case Some(obj) => obj
    case None => Fallback
  }

  /** The fallback has exactly the three fields, with the fixed values. */
  lemma FallbackShape()
    ensures Fallback.Keys == {"category", "subcategory", "emotion"} && |Fallback| == 3
    ensures Fallback["category"] == "Unknown" && Fallback["subcategory"] == "General" && Fallback["emotion"] == "Neutral"
  {
    assert Fallback.Keys == {"category", "subcategory", "emotion"};
  }

  /** Characters past the first 3000 never reach the chat request, so (the model answering a
      request the same way each time) they never influence the classification. */
  lemma ClassificationIgnoresTail(a: string, b: string, llm: Llm, parse: JsonParser)
    requires Take(a, ArticleLimit) == Take(b, ArticleLimit)
    ensures ClassifyRequest(a) == ClassifyRequest(b)
    ensures DetectCategoryAndSubcategory(a, llm, parse) == DetectCategoryAndSubcategory(b, llm, parse)
  {
  }

  /** A reply fenced as a `json` code block is parsed from the block's body. */
  lemma ClassifyFencedReply(text: string, llm: Llm, parse: JsonParser, body: string)
    requires body != [] && Bare(body, None)
    requires llm(ClassifyRequest(text)) == "```json\n" + body + "\n```"
    ensures DetectCategoryAndSubcategory(text, llm, parse) == (if parse(body).Some? then parse(body).value else Fallback)
  {
    CleanUnfencesJsonBlock(body);
  }
}
