/**
  The chat-completion call as an abstract function, and the cleaning every JSON reply goes
  through before parsing: `content.strip()` then `.strip("```json").strip("```").strip()`.
 */
module Chat {
  import opened Wrappers
  import opened PyStrings

  /** One chat completion request: the model, the system message and the user message. */
  datatype ChatRequest = ChatRequest(model: string, system: string, user: string)

  /** The language model: the content of the first choice of the reply to a request. */
  type Llm = ChatRequest -> string

  const ChatModel := "gpt-4"

  /** How many characters of the article a prompt embeds (`article_text[:3000]`). */
  const ArticleLimit: nat := 3000

  /** The character SET handed to the second strip: backtick, j, s, o, n. */
  const FenceChars := "```json"

  /** The character set handed to the third strip: backtick only. */
  const BacktickChars := "```"

  /** The reply after the four strips of the cleaning chain. */
  function CleanReply(raw: string): string {
    Strip(Strip(Strip(Strip(raw, None), Some(FenceChars)), Some(BacktickChars)), None)
  }

  /** The cleaned reply is a slice of the raw reply with no whitespace at either end. */
  lemma CleanReplyIsBareSlice(raw: string)
    ensures IsSubstring(CleanReply(raw), raw)
    ensures Bare(CleanReply(raw), None)
  {
    var s0 := Strip(raw, None);
    var s1 := Strip(s0, Some(FenceChars));
    var s2 := Strip(s1, Some(BacktickChars));
    var s3 := Strip(s2, None);
    StripTrims(raw, None);
    StripTrims(s0, Some(FenceChars));
    StripTrims(s1, Some(BacktickChars));
    StripTrims(s2, None);
    TrimmedIsSubstring(raw, s0, None);
    TrimmedIsSubstring(s0, s1, Some(FenceChars));
    TrimmedIsSubstring(s1, s2, Some(BacktickChars));
    TrimmedIsSubstring(s2, s3, None);
    SubstringTransitive(s1, s0, raw);
    SubstringTransitive(s2, s1, raw);
    SubstringTransitive(s3, s2, raw);
  }

  /** Every character the backtick strip removes, the fence strip removes too. */
  lemma BacktickInFenceChars()
    ensures forall c :: Stripped(c, Some(BacktickChars)) ==> Stripped(c, Some(FenceChars))
  {
    assert FenceChars[0] == '`';
  }

  /** The middle `strip("```")` never changes its input: backtick already belongs to the set
      of the strip before it, so nothing it could remove is left at either end. */
  lemma BacktickStripIsNoOp(raw: string)
    ensures var s1 := Strip(Strip(raw, None), Some(FenceChars));
            Strip(s1, Some(BacktickChars)) == s1
  {
    var s1 := Strip(Strip(raw, None), Some(FenceChars));
    StripTrims(Strip(raw, None), Some(FenceChars));
    assert Bare(s1, Some(FenceChars));
    BacktickInFenceChars();
    StripBare(s1, Some(BacktickChars));
  }

  /** A reply fenced as a Markdown `json` code block yields exactly the block's body. */
  lemma CleanUnfencesJsonBlock(body: string)
    requires body != [] && Bare(body, None)
    ensures CleanReply("```json\n" + body + "\n```") == body
  {
    var mid := "\n" + body + "\n";
    FencedSpelling(body, mid);
    UnfenceChain(body, mid);
  }

  /** The fenced block is the fence set, the text between the fences, and the closing fence. */
  lemma FencedSpelling(body: string, mid: string)
    requires mid == "\n" + body + "\n"
    ensures "```json\n" + body + "\n```" == FenceChars + mid + BacktickChars
  {
  }

  /** The four strips take a fenced block down to its body. */
  lemma UnfenceChain(body: string, mid: string)
    requires body != [] && Bare(body, None)
    requires mid == "\n" + body + "\n"
    ensures CleanReply(FenceChars + mid + BacktickChars) == body
  {
    UnfenceOuter(mid);
    UnfenceInner(body);
  }

  /** The first three strips of the chain take a fenced block down to the text between the
      fences. */
  lemma UnfenceOuter(mid: string)
    requires |mid| >= 2 && mid[0] == '\n' && mid[|mid| - 1] == '\n'
    ensures var fenced := FenceChars + mid + BacktickChars;
            Strip(Strip(Strip(fenced, None), Some(FenceChars)), Some(BacktickChars)) == mid
  {
    var fenced := FenceChars + mid + BacktickChars;
    assert fenced[0] == '`' && fenced[|fenced| - 1] == '`';
    StripBare(fenced, None);
    assert Bare(mid, Some(FenceChars));
    StripAround(FenceChars, mid, BacktickChars, Some(FenceChars));
    StripBare(mid, Some(BacktickChars));
  }

  /** The final whitespace strip removes the line feeds that followed and preceded the fences. */
  lemma UnfenceInner(body: string)
    requires body != [] && Bare(body, None)
    ensures Strip("\n" + body + "\n", None) == body
  {
    StripAround("\n", body, "\n", None);
  }

  /** A reply that is a bare JSON object (first character `{`, last `}` after trimming
      whitespace) reaches the parser unchanged. */
  lemma CleanKeepsBareObject(raw: string)
    requires var t := Strip(raw, None); |t| >= 2 && t[0] == '{' && t[|t| - 1] == '}'
    ensures CleanReply(raw) == Strip(raw, None)
  {
    var t := Strip(raw, None);
    assert '{' !in FenceChars && '}' !in FenceChars;
    StripBare(t, Some(FenceChars));
    StripBare(t, Some(BacktickChars));
    StripBare(t, None);
  }

  /** The cleaning is a character-set strip, not a fence removal: any run of backticks and
      the letters j, s, o, n is cut from both ends of the reply, fenced or not, and
      nothing past the first and last character outside that set. */
  lemma CleanDropsSetRuns(p: string, body: string, q: string)
    requires forall k :: 0 <= k < |p| ==> p[k] in FenceChars
    requires forall k :: 0 <= k < |q| ==> q[k] in FenceChars
    requires body != [] && Bare(body, None) && Bare(body, Some(FenceChars))
    ensures CleanReply(p + body + q) == body
  {
    var raw := p + body + q;
    assert Bare(raw, None) by {
      assert raw[0] == if p == [] then body[0] else p[0];
      assert raw[|raw| - 1] == if q == [] then body[|body| - 1] else q[|q| - 1];
    }
    StripBare(raw, None);
    StripAround(p, body, q, Some(FenceChars));
    BacktickInFenceChars();
    StripBare(body, Some(BacktickChars));
    StripBare(body, None);
  }
}
