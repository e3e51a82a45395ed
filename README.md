# News-lab web-story pipeline, modelled in Dafny

News-lab (`app.py`) turns a news article into a narrated web story. It runs in two tabs:

- **Story tab.** The article's polarity becomes a sentiment label. The article is classified by
  one chat completion. A second completion outlines the slides. Slide 1 is built locally from
  the article's first line. Each outline entry then gets a narration from a further completion.
  The story is flattened into a map `s1paragraph1`, `s2paragraph1`, ... of stripped scripts.
- **Audio tab.** Each paragraph of such a map goes to a text-to-speech endpoint. The audio is
  written to a temporary file under `temp`, uploaded to an S3 bucket and deleted. The result
  records `slide2`, `slide3`, ... with the paragraph, its CDN link and the voice.

This project models the data transforms between the external calls and proves what they
guarantee. The language model, the JSON parser, the TTS endpoint, the upload and `uuid4` are
function-typed parameters. So every statement holds whatever those services return, with one
caveat: each service is a fixed function of its request, so the same request always gets the
same answer.

| module (file) | models |
|---|---|
| `Wrappers` (wrappers.dfy) | `Option` and `Result` |
| `PyStrings` (py_strings.dfy) | Python's `str.strip()`, `str.strip(chars)`, `s[:n]`, `s.split("\n")[0]` and `s.replace(c, "")` |
| `DecimalKeys` (decimal_keys.dfy) | `str(n)` for naturals and the keys `s{n}paragraph1`, `slide{n}`, `audio_url{n}` |
| `Sentiment` (sentiment.dfy) | `get_sentiment`'s thresholds |
| `Chat` (chat.dfy) | the chat request and the reply-cleaning chain |
| `Classifier` (classifier.dfy) | `detect_category_and_subcategory` |
| `ScriptGenerator` (script_generator.dfy) | `title_script_generator` |
| `Restructurer` (restructurer.dfy) | `restructure_slide_output` |
| `TtsUploader` (tts_uploader.dfy) | `synthesize_and_upload`, with the disk and the bucket as classes |
| `Pipeline` (pipeline.dfy) | how the narration map feeds the audio step |

`strip(chars)` is modelled as Python defines it. The argument is a set of characters, and
runs of them are removed from both ends. So `strip("```json")` removes any leading or
trailing mix of backticks and the letters `j`, `s`, `o`, `n`, and does not remove a Markdown
fence as such. `CleanDropsSetRuns` states this.

## Model

| member | source | states |
|---|---|---|
| Sentiment.SentimentLabel | app.py:58-63 | "positive" exactly when polarity > 0.2; "negative" exactly when polarity < -0.2; "neutral" exactly when -0.2 <= polarity <= 0.2 |
| Sentiment.SentimentMonotone | app.py:58-63 | a larger polarity never gets a less positive label |
| PyStrings.LStrip | app.py:93 | the result is a suffix of the input; every character cut off is removable; the first kept character is not removable |
| PyStrings.RStrip | app.py:93 | the result is a prefix of the input; every character cut off is removable; the last kept character is not removable |
| PyStrings.StripTrims | app.py:93-94 | `strip` yields a slice of the input; only removable characters are cut off on either side; no removable character is left at either end |
| PyStrings.TrimmedUnique | app.py:93-94 | at most one string meets that description |
| PyStrings.StripCharacterized | app.py:93-94 | any string meeting that description is exactly what `strip` returns |
| PyStrings.StripBare | app.py:93-94 | stripping a string that has no removable character at either end changes nothing (`strip` is idempotent) |
| PyStrings.StripAround | app.py:93-94 | removable runs around a non-empty bare core are removed, and the core is kept whole |
| PyStrings.Strip | app.py:93-94 | `s.strip(chars)` as `rstrip` after `lstrip`; what it returns is pinned down by StripTrims and StripCharacterized |
| PyStrings.StripSpace | app.py:148 | `s.strip()`, the whitespace strip (also at app.py:93, 141, 175 and 195) |
| PyStrings.TrimmedIsSubstring | app.py:93-94 | a strip result is a contiguous substring of its input |
| PyStrings.Take | app.py:76 | `s[:n]` has length min(len(s), n) and is a prefix of `s` |
| PyStrings.FirstLine | app.py:148 | `split("\n")[0]` is a prefix with no line feed, followed by a line feed when it is shorter than the input |
| PyStrings.FirstLineOf | app.py:148 | the first line of `line + "\n" + rest` is `line`, whatever `rest` holds |
| PyStrings.FirstLineWhole | app.py:148 | a string with no line feed is its own first line |
| PyStrings.RemoveAll | app.py:148 | `replace(c, "")` leaves no `c`, keeps every other character as often as it occurs (multiset of the input with `c` removed), never lengthens, and leaves a `c`-free string unchanged |
| PyStrings.RemoveAllSingle | app.py:148 | one character is deleted exactly when it is `c`; with RemoveAllConcat this fixes the order of the kept characters |
| PyStrings.RemoveAllConcat | app.py:148 | deleting a character distributes over concatenation |
| DecimalKeys.Decimal | app.py:194 | `str(n)` is at least one digit, has one digit exactly when n < 10, and has no leading zero |
| DecimalKeys.DecimalValue | app.py:194 | reading `str(n)` back as decimal digits gives `n` |
| DecimalKeys.DecimalInjective | app.py:194 | different naturals render differently |
| DecimalKeys.ParagraphKey | app.py:194 | `f"s{n}paragraph1"`; injective by ParagraphKeyInjective |
| DecimalKeys.SlideKey | app.py:237 | `f"slide{n}"`; injective by SlideKeyInjective |
| DecimalKeys.AudioKey | app.py:239 | `f"audio_url{n}"`; never equal to a paragraph key or `voice` by EntryKeysDistinct |
| DecimalKeys.ParagraphKeyInjective | app.py:194 | different slide numbers give different `s{n}paragraph1` keys |
| DecimalKeys.SlideKeyInjective | app.py:237 | different slide numbers give different `slide{n}` keys |
| DecimalKeys.EntryKeysDistinct | app.py:238-244 | the keys `s{i}paragraph1`, `audio_url{j}` and `voice` never collide |
| Chat.CleanReply | app.py:93-94 | the four strips `strip()`, `strip("```json")`, `strip("```")`, `strip()` in order (also at app.py:140-141) |
| Chat.CleanReplyIsBareSlice | app.py:93-94 | the cleaned reply is a contiguous substring of the raw reply with no whitespace at either end |
| Chat.BacktickStripIsNoOp | app.py:94 | the middle `strip("```")` never changes its input |
| Chat.CleanUnfencesJsonBlock | app.py:93-94 | a reply fenced as a `json` code block is cleaned to exactly the block's body |
| Chat.UnfenceOuter | app.py:93-94 | the first three strips take a fenced block down to the text between the fences |
| Chat.UnfenceInner | app.py:94 | the last strip removes the line feeds next to the fences |
| Chat.CleanKeepsBareObject | app.py:93-94 | a reply that is a JSON object after trimming whitespace reaches the parser unchanged |
| Chat.CleanDropsSetRuns | app.py:94 | runs of backticks and the letters j, s, o, n are cut from both ends, fenced or not, down to the first and last other character |
| Classifier.ClassifyPrompt | app.py:66-89 | the user message: fixed head, `text[:3000]`, fixed tail |
| Classifier.ClassifyRequest | app.py:85-91 | model `gpt-4`, the fixed system message and that user message |
| Classifier.ClassifyPromptIsStrippedTemplate | app.py:66-89 | stripping the template removes only its two surrounding line feeds; the article part is at most 3000 characters |
| Classifier.DetectCategoryAndSubcategory | app.py:96-103 | a cleaned reply that fails to parse gives the fallback object; one that parses is returned unchanged |
| Classifier.FallbackShape | app.py:99-103 | the fallback has exactly the fields category "Unknown", subcategory "General" and emotion "Neutral" |
| Classifier.ClassificationIgnoresTail | app.py:76 | two articles that agree on their first 3000 characters produce the same chat request, and so are classified alike |
| Classifier.ClassifyFencedReply | app.py:93-103 | a fenced reply is classified as its body parses, or as the fallback |
| ScriptGenerator.Sketch | app.py:106-107 | a missing or empty sketch becomes the default persona; any other sketch is kept; the result is never empty |
| ScriptGenerator.OutlinePrompt | app.py:124-131 | the outline user message: the three labels and `article_text[:3000]` in triple quotes |
| ScriptGenerator.Outline | app.py:132-146 | the outline is the parse of the cleaned reply to the outline request |
| ScriptGenerator.NarrationPrompt | app.py:159-172 | the narration user message: the stripped template around instruction and sketch |
| ScriptGenerator.Narration | app.py:168-175 | the stripped reply to the narration request |
| ScriptGenerator.Headline | app.py:148 | first line, stripped, quotes deleted, in that order |
| ScriptGenerator.IntroSlide | app.py:151-156 | slide 1 from the headline |
| ScriptGenerator.OutlineSlide | app.py:176-181 | the slide for one outline entry: its title, its instruction, the templated image prompt and its narration |
| ScriptGenerator.OutlinePromptIsStrippedTemplate | app.py:124-136 | stripping the outline template removes only its surrounding line feeds |
| ScriptGenerator.NarrationPromptEmbeds | app.py:159-172 | when the sketch ends in a visible character, the narration message embeds the instruction and the sketch verbatim |
| ScriptGenerator.NarrationIsTrimmedReply | app.py:175 | a narration is a substring of the reply with no whitespace at either end |
| ScriptGenerator.HeadlineIsOneCleanLine | app.py:148 | the headline holds no double quote and no line feed, and every other character of the stripped first line as often as it occurs there |
| ScriptGenerator.IntroSlideFromHeadline | app.py:148-156 | slide 1's title is the headline cut to 80 characters (the whole headline when shorter) with no quote in it; its script is the greeting plus the headline; its image prompt is the fixed prefix plus the headline |
| ScriptGenerator.IntroScriptIsFirstLine | app.py:148-149 | for an article whose first line is clean, the greeting is followed by exactly that line |
| ScriptGenerator.QuotedLineKept | app.py:148 | a quoted line survives the first-line cut and the whitespace strip |
| ScriptGenerator.QuotesDeleted | app.py:148 | deleting the quotes around a quote-free word keeps the space that followed the first quote |
| ScriptGenerator.QuotesRemovedAfterStrip | app.py:148 | quotes are removed after the whitespace strip, so `" word"` (with its quotes) yields " word" with the leading space |
| ScriptGenerator.AppendNarratedSlides | app.py:151-181 | slide 1 first, then one slide per outline entry in outline order, each with its title, its instruction, the templated image prompt and its narration |
| ScriptGenerator.TitleScriptGenerator | app.py:105-188 | the labels pass through; an unparsable outline gives no slides; otherwise 1 + len(outline) slides, slide 1 from the headline and slide k + 1 from outline entry k |
| Restructurer.ScriptOf | app.py:195 | `slide.get("script", "")` |
| Restructurer.NarrationOf | app.py:195 | one slide's script with whitespace stripped |
| Restructurer.Paragraphs | app.py:193-195 | text n (1-based) under `s{n}paragraph1`; shape proved by SlideParagraphs |
| Restructurer.Narrations | app.py:195 | one narration per slide, in slide order, each the slide's script stripped (or "" without one) |
| Restructurer.ParagraphsKeys | app.py:193-195 | only keys `s1paragraph1` ... `s{n}paragraph1` occur |
| Restructurer.LaterKeyAbsent | app.py:193-195 | no key for a later slide is present yet |
| Restructurer.ParagraphsSize | app.py:193-195 | exactly one entry per slide |
| Restructurer.ParagraphsValues | app.py:193-195 | slide i's text is under `s{i}paragraph1` |
| Restructurer.SlideParagraphs | app.py:190-196 | exactly len(slides) entries, keyed `s1paragraph1` ... `s{n}paragraph1`, slide i's stripped script under the i-th key, nothing else |
| Restructurer.RestructureSlideOutput | app.py:190-196 | the loop builds exactly that map from the `slides` list, or from no slides when the key is missing |
| Restructurer.EmptyWithoutSlides | app.py:191 | a missing or empty slide list gives an empty map |
| TtsUploader.Values | app.py:210 | only the values of the input map are used, in iteration order |
| TtsUploader.LocalFiles.MakeDirs | app.py:207 | the directory now exists; no file changes |
| TtsUploader.LocalFiles.WriteFile | app.py:230-231 | the file at `dir/name` now holds the bytes; nothing else changes |
| TtsUploader.LocalFiles.RemoveFile | app.py:248 | the file is gone; nothing else changes |
| TtsUploader.ObjectStore.Put | app.py:234 | the object under bucket and key now holds the bytes |
| TtsUploader.FileName | app.py:227 | `f"tts_{hex}.mp3"` |
| TtsUploader.LocalPath | app.py:228 | `temp/` plus the file name of slide i's draw |
| TtsUploader.ObjectKey | app.py:233 | `S3_PREFIX` plus that file name; injective in the draw by ObjectKeyInjective |
| TtsUploader.CdnUrl | app.py:235 | `CDN_BASE` plus the object key |
| TtsUploader.SlideEntry | app.py:241-245 | the three-field entry of one slide; shape by SlideEntryShape |
| TtsUploader.Entries | app.py:237-247 | the result after m slides; keys, size and values by EntriesKeys, EntriesSize and EntriesValues |
| TtsUploader.TempFiles | app.py:227-231 | the temporary files of the first m slides; characterised by TempFilesExactly |
| TtsUploader.SlideEntryShape | app.py:241-245 | each entry has exactly three fields: the paragraph under `s{i}paragraph1`, the link under `audio_url{i}`, and the voice |
| TtsUploader.SynthesizeAndUpload | app.py:198-250 | success exactly when every paragraph is spoken and uploaded; on success: all entries, every temporary file removed, every upload stored; on failure: the first failing slide with no result, earlier uploads kept, and the file of a failed upload left behind |
| TtsUploader.FailureStopsBatch | app.py:225-234 | one failing paragraph means the batch fails |
| TtsUploader.SuccessExtends | app.py:210-248 | a paragraph that goes through extends the run of successes |
| TtsUploader.RemoveWritten | app.py:230-248 | writing a file and removing it again leaves the directory as if only the removal happened |
| TtsUploader.EntriesKeys | app.py:237-241 | only keys `slide2` ... `slide{n+1}` occur |
| TtsUploader.LaterSlideAbsent | app.py:237-241 | no key for a later slide is present yet |
| TtsUploader.EntriesSize | app.py:237-241 | exactly one entry per paragraph |
| TtsUploader.EntriesValues | app.py:237-247 | `slide{i}` holds paragraph i - 1, its CDN link and the voice |
| TtsUploader.AudioResultShape | app.py:206-250 | with n paragraphs the result has exactly keys `slide2` ... `slide{n+1}`; `slide{i}` holds paragraph i - 1 and the link `CDN_BASE + S3_PREFIX + tts_<hex>.mp3` |
| TtsUploader.TempFilesExactly | app.py:227-228 | the temporary files of a run are exactly one per processed slide |
| TtsUploader.TempFilesUnderTemp | app.py:228 | every temporary file lies under `temp/` |
| TtsUploader.SuccessLeavesTempClean | app.py:207-248 | after a successful batch none of its temporary files remains, and files outside `temp/` are untouched |
| TtsUploader.ObjectKeyInjective | app.py:227-233 | different `uuid4` draws give different object keys |
| TtsUploader.UploadsHold | app.py:233-234 | when the draws differ, every paragraph of a successful run is in the bucket under its own key, holding the audio spoken for it |
| Pipeline.NarrationMovesUpOneSlide | app.py:193-242 | the narration stored as slide n is spoken and recorded as slide n + 1 |

## Left out

- The Streamlit interface, article download (`newspaper`), NLTK setup, environment loading and client construction (app.py:1-53, 252-330). They are user interface and configuration. The top-level orchestration of the story tab (app.py:266-286) is not modelled as a member. Its data flow into the audio step is stated by `Pipeline.NarrationMovesUpOneSlide`.
- TextBlob's polarity. `get_sentiment` is modelled from the polarity on, and the polarity is a `real`. The thresholds are exact reals, not IEEE doubles.
- The language model, `json.loads`, the TTS endpoint, `upload_file` and `uuid4`. Each is a function parameter. A failed TTS request or a failed upload is an `Option`/`bool` outcome, not an exception with a message. A chat call always answers (see the lines below). Each service is a fixed function of its request, so a model that answers one prompt differently on two calls is not captured. Statements that compare two runs, such as ClassificationIgnoresTail, rely on this; its first clause, that the two requests are equal, does not.
- DetectCategoryAndSubcategory: a failing chat call (an exception from `client.chat.completions.create`, or a reply with no content) propagates out of `detect_category_and_subcategory` at app.py:85-93; the model's chat call always answers with a string, so that path is not modelled and the function always returns.
- DetectCategoryAndSubcategory: a parsed JSON value is a map from strings to strings. Non-string values and non-object JSON are not distinguished, and a reply that parses but lacks a field is returned as parsed. The code does this, even though a field-incomplete reply could also be treated as a failure.
- TitleScriptGenerator: the outline parser yields entries with both a title and a prompt. The uncaught `KeyError` for an entry missing one of them is not modelled. An exception raised by a chat call is not modelled either.
- SynthesizeAndUpload: the input map is a sequence of (key, value) pairs in insertion order, since a Dafny map has no order. `uuid4().hex` for slide i is `svc.hexId(i)`. Only `ObjectKeyInjective` and `UploadsHold` require the draws to be distinct. The progress line written to the page (app.py:211) is output only.
- SynthesizeAndUpload: a failed upload is modelled as leaving the bucket unchanged. Partial uploads are not modelled.
- The JSON files written and read between the two tabs (app.py:290-311, 318-330). `Pipeline.NarrationMovesUpOneSlide` takes the map to be read back in the order it was written.
- `voice_options` and the voice picker. The voice is a plain string parameter.
- No HTML/AMP assembly exists in this source, so none is modelled.
