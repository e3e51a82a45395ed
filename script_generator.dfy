/**
  `title_script_generator`: an outline from one chat call, an intro slide built locally
  from the article's first line, and one narrated slide per outline entry.
 */
module ScriptGenerator {
  import opened Wrappers
  import opened PyStrings
  import opened Chat

  /** One outline entry: a slide title and the instruction for its narration. */
  datatype OutlineEntry = OutlineEntry(title: string, prompt: string)

  /** `json.loads(content)["slides"]`, abstract: `None` when the reply is not JSON or has no
      usable `slides` list. */
  type OutlineParser = string -> Option<seq<OutlineEntry>>

  datatype Slide = Slide(title: string, prompt: string, imagePrompt: string, script: string)

  datatype Story = Story(category: string, subcategory: string, emotion: string, slides: seq<Slide>)

  const TitleLimit: nat := 80

  const DefaultSketch := "Rohan Sharma is a sincere and articulate Hindi-English news anchor..."
  const Greeting := "Namaskar doston, main hoon Rohan Sharma. Aaj ki badi khabar: "
  const IntroPrompt := "Intro slide with greeting and headline."
  const IntroImagePrefix := "Vector-style illustration of Rohan Sharma presenting news: "
  const SlideImagePrefix := "Modern vector-style visual for: "

  /** The outline system message, already stripped of its surrounding line feeds. */
  const OutlineSystem :=
    "You are a digital content editor.\n\n"
    + "Create a structured 5-slide web story from the article below. Each slide must contain:\n"
    + "- A short English title (for the slide)\n"
    + "- A prompt: a clear instruction telling another GPT model what narration to write (don't write the narration here)\n\n"
    + "Format:\n{\n  \"slides\": [\n    { \"title\": \"...\", \"prompt\": \"...\" },\n    ...\n  ]\n}"

  const NarrationSystem := "You write news narration in Hindi-English mix."

  const NarrationHead :=
    "Write a 3\U{2013}4 line "
    + "Hindi-English narration in the voice of Rohan Sharma.\n\n"
    + "Instruction: "
  const NarrationMid :=
    "\nTone: Warm, simple, and clear. Avoid self-introduction.\n\n"
    + "Character sketch:\n"

  /** `if not character_sketch`: a missing or empty override falls back to the default persona. */
  function Sketch(characterSketch: Option<string>): (sketch: string)
    ensures sketch != []
    ensures characterSketch.Some? && characterSketch.value != [] ==> sketch == characterSketch.value
    ensures characterSketch.None? || characterSketch.value == [] ==> sketch == DefaultSketch
  {
    if characterSketch.None? || characterSketch.value == [] then DefaultSketch else characterSketch.value
  }

  /** The outline user message: the three labels, then `article_text[:3000]` in triple quotes. */
  function OutlinePrompt(category: string, subcategory: string, emotion: string, articleText: string): string {
    "Category: " + category + "\nSubcategory: " + subcategory + "\nEmotion: " + emotion
    + "\n\nArticle:\n\"\"\"" + Take(articleText, ArticleLimit) + "\"\"\""
  }

  function OutlineRequest(category: string, subcategory: string, emotion: string, articleText: string): ChatRequest {
    ChatRequest(ChatModel, OutlineSystem, OutlinePrompt(category, subcategory, emotion, articleText))
  }

  /** The outline the chat call yields for this article, if it parses. */
  function Outline(category: string, subcategory: string, emotion: string, articleText: string,
                   llm: Llm, parseOutline: OutlineParser): Option<seq<OutlineEntry>>
  {
    parseOutline(CleanReply(llm(OutlineRequest(category, subcategory, emotion, articleText))))
  }

  /** The source's template opens and closes with a line feed and is then `strip()`ped; whatever
      the labels hold, only those two line feeds go. */
  lemma OutlinePromptIsStrippedTemplate(category: string, subcategory: string, emotion: string, articleText: string)
    ensures var body := OutlinePrompt(category, subcategory, emotion, articleText);
            Strip("\n" + body + "\n", None) == body
  {
    var body := OutlinePrompt(category, subcategory, emotion, articleText);
    assert body[0] == 'C' && body[|body| - 1] == '"';
    StripAround("\n", body, "\n", None);
  }

  /** The narration user message: the template around the instruction and the sketch, stripped. */
  function NarrationPrompt(instruction: string, sketch: string): string {
    Strip("\n" + NarrationHead + instruction + NarrationMid + sketch + "\n", None)
  }

  /** When the sketch ends in a visible character, the strip removes only the template's own
      line feeds and the message embeds instruction and sketch verbatim. */
  lemma NarrationPromptEmbeds(instruction: string, sketch: string)
    requires sketch != [] && !IsSpace(sketch[|sketch| - 1])
    ensures NarrationPrompt(instruction, sketch) == NarrationHead + instruction + NarrationMid + sketch
  {
    var body := NarrationHead + instruction + NarrationMid + sketch;
    assert NarrationHead[0] == 'W';
    assert body[0] == 'W' && body[|body| - 1] == sketch[|sketch| - 1];
    assert "\n" + NarrationHead + instruction + NarrationMid + sketch + "\n" == "\n" + body + "\n";
    StripAround("\n", body, "\n", None);
  }

  function NarrationRequest(instruction: string, sketch: string): ChatRequest {
    ChatRequest(ChatModel, NarrationSystem, NarrationPrompt(instruction, sketch))
  }

  /** The narration for one instruction: the chat reply with `strip()` applied. */
  function Narration(llm: Llm, instruction: string, sketch: string): string {
    StripSpace(llm(NarrationRequest(instruction, sketch)))
  }

  /** A narration is the reply with surrounding whitespace cut off and nothing else. */
  lemma NarrationIsTrimmedReply(llm: Llm, instruction: string, sketch: string)
    ensures var reply, narration := llm(NarrationRequest(instruction, sketch)), Narration(llm, instruction, sketch);
            Bare(narration, None) && IsSubstring(narration, reply)
  {
    var reply := llm(NarrationRequest(instruction, sketch));
    StripTrims(reply, None);
    TrimmedIsSubstring(reply, StripSpace(reply), None);
  }

  /** `article_text.split("\n")[0].strip().replace('"', '')`, in that order. */
  function Headline(articleText: string): string {
    RemoveAll(StripSpace(FirstLine(articleText)), '"')
  }

  /** The headline is a single line with no double quote in it, holding every other character
      of the stripped first line. */
  lemma HeadlineIsOneCleanLine(articleText: string)
    ensures '"' !in Headline(articleText) && '\n' !in Headline(articleText)
    ensures multiset(Headline(articleText)) == multiset(StripSpace(FirstLine(articleText)))['"' := 0]
  {
    var line := FirstLine(articleText);
    var stripped := StripSpace(line);
    StripTrims(line, None);
    TrimmedIsSubstring(line, stripped, None);
    SubstringChars(stripped, line);
  }

  /** Slide 1, built without any chat call. */
  function IntroSlide(articleText: string): Slide {
    var headline := Headline(articleText);
    Slide(Take(headline, TitleLimit), IntroPrompt, IntroImagePrefix + headline, Greeting + headline)
  }

  /** What slide 1 holds: its title is the headline cut to 80 characters, its script and image
      prompt carry the whole headline after fixed text, and no quote survives in the title. */
  lemma IntroSlideFromHeadline(articleText: string)
    ensures var slide, headline := IntroSlide(articleText), Headline(articleText);
            && |slide.title| <= TitleLimit
            && slide.title == headline[..|slide.title|]
            && (|headline| <= TitleLimit ==> slide.title == headline)
            && '"' !in slide.title
            && slide.script == Greeting + headline
            && slide.imagePrompt == IntroImagePrefix + headline
            && slide.prompt == IntroPrompt
  {
    var headline := Headline(articleText);
    var title := Take(headline, TitleLimit);
    HeadlineIsOneCleanLine(articleText);
    assert forall c :: c in title ==> c in headline;
  }

  /** For an article whose first line is already clean, the greeting is followed by exactly
      that line, whatever comes after it. */
  lemma IntroScriptIsFirstLine(line: string, rest: string)
    requires '\n' !in line && '"' !in line && Bare(line, None)
    ensures IntroSlide(line + "\n" + rest).script == Greeting + line
    ensures Headline(line + "\n" + rest) == line
  {
    FirstLineOf(line, rest);
    StripBare(line, None);
  }

  /** A line that opens and closes with a double quote survives the first-line cut and the
      whitespace strip unchanged. */
  lemma QuotedLineKept(word: string)
    requires '\n' !in word
    ensures var line := "\" " + word + "\"";
            FirstLine(line) == line && StripSpace(line) == line
  {
    var line := "\" " + word + "\"";
    assert '\n' !in line by {
      assert line == ['"', ' '] + word + ['"'];
    }
    FirstLineWhole(line);
    assert line[0] == '"' && line[|line| - 1] == '"';
    StripBare(line, None);
  }

  /** Deleting the quote from an opening quote and space leaves the space. */
  lemma OpeningQuoteDeleted()
    ensures RemoveAll("\" ", '"') == " "
  {
    assert "\" " == ['"'] + [' '];
    RemoveAllConcat(['"'], [' '], '"');
    RemoveAllSingle('"', '"');
    RemoveAllSingle(' ', '"');
  }

  /** Deleting the quotes around a quote-free word leaves the space that followed the first. */
  lemma QuotesDeleted(word: string)
    requires '"' !in word
    ensures RemoveAll("\" " + word + "\"", '"') == " " + word
  {
    OpeningQuoteDeleted();
    RemoveAllConcat("\" ", word, '"');
    RemoveAllConcat("\" " + word, "\"", '"');
    RemoveAllSingle('"', '"');
  }

  /** Quotes are removed AFTER the whitespace strip: a headline that opens with a quote and
      a space keeps the space. */
  lemma QuotesRemovedAfterStrip(word: string)
    requires '\n' !in word && '"' !in word
    ensures Headline("\" " + word + "\"") == " " + word
  {
    QuotedLineKept(word);
    QuotesDeleted(word);
  }

  /** The slide made from one outline entry: its title and instruction, the templated image
      prompt, and the narration the chat call returns for the instruction. */
  function OutlineSlide(llm: Llm, entry: OutlineEntry, sketch: string): Slide {
    Slide(entry.title, entry.prompt, SlideImagePrefix + entry.title, Narration(llm, entry.prompt, sketch))
  }

  /** The loop over the outline: starting from slide 1, one chat call per entry, each result
      appended in outline order. */
  method AppendNarratedSlides(intro: Slide, outline: seq<OutlineEntry>, llm: Llm, sketch: string)
    returns (slides: seq<Slide>)
    ensures |slides| == 1 + |outline| && slides[0] == intro
    ensures forall j :: 1 <= j <= |outline| ==> slides[j] == OutlineSlide(llm, outline[j - 1], sketch)
  {
    slides := [intro];
    for k := 0 to |outline|
      invariant |slides| == 1 + k && slides[0] == intro
      invariant forall j :: 1 <= j <= k ==> slides[j] == OutlineSlide(llm, outline[j - 1], sketch)
    {
      var slide := OutlineSlide(llm, outline[k], sketch);
      slides := slides + [slide];
    }
  }

  /** `title_script_generator`: the outline call, then slide 1 and one narrated slide per
      outline entry, in outline order; an unparsable outline gives no slides at all. */
  method TitleScriptGenerator(category: string, subcategory: string, emotion: string, articleText: string,
                              characterSketch: Option<string>, llm: Llm, parseOutline: OutlineParser)
    returns (story: Story)
    ensures story.category == category && story.subcategory == subcategory && story.emotion == emotion
    ensures Outline(category, subcategory, emotion, articleText, llm, parseOutline).None? ==> story.slides == []
    ensures Outline(category, subcategory, emotion, articleText, llm, parseOutline).Some? ==>
              var outline := Outline(category, subcategory, emotion, articleText, llm, parseOutline).value;
              && |story.slides| == 1 + |outline|
              && story.slides[0] == IntroSlide(articleText)
              && forall k :: 0 <= k < |outline| ==>
                   story.slides[k + 1] == OutlineSlide(llm, outline[k], Sketch(characterSketch))
  {
    var sketch := Sketch(characterSketch);
    var parsed := Outline(category, subcategory, emotion, articleText, llm, parseOutline);
    if parsed.None? {
      return Story(category, subcategory, emotion, []);
    }
    var outline := parsed.value;
    var intro := IntroSlide(articleText);
    var slides := AppendNarratedSlides(intro, outline, llm, sketch);
    story := Story(category, subcategory, emotion, slides);
  }
}
