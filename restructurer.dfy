/**
  `restructure_slide_output`: the slide list becomes the flat narration map keyed
  `s1paragraph1`, `s2paragraph1`, ... in slide order.
 */
module Restructurer {
  import opened Wrappers
  import opened PyStrings
  import opened DecimalKeys

  /** A slide as a JSON object with string values. */
  type SlideRecord = map<string, string>

  /** `slide.get("script", "")` */
  function ScriptOf(slide: SlideRecord): string {
    if "script" in slide then slide["script"] else ""
  }

  /** `final_output.get("slides", [])`: `None` when the key is missing. */
  function SlidesOrEmpty(slides: Option<seq<SlideRecord>>): seq<SlideRecord> {
    match slides
    case Some(s) => s
    case None => []
  }

  /** The narration of one slide: its script with surrounding whitespace removed, or the
      empty string for a slide without one. */
  function NarrationOf(slide: SlideRecord): string {
    StripSpace(ScriptOf(slide))
  }

  /** The narrations of a slide list, in slide order. */
  function Narrations(list: seq<SlideRecord>): (texts: seq<string>)
    ensures |texts| == |list|
    ensures forall k :: 0 <= k < |list| ==> texts[k] == NarrationOf(list[k])
  {
    seq(|list|, k requires 0 <= k < |list| => NarrationOf(list[k]))
  }

  /** The narration map of a list of texts: text `n` (1-based) under `s{n}paragraph1`. */
  function Paragraphs(texts: seq<string>): map<string, string>
    decreases |texts|
  {
    if texts == [] then map[]
    else Paragraphs(texts[..|texts| - 1])[ParagraphKey(|texts|) := texts[|texts| - 1]]
  }

  /** Only keys of positions up to the list length occur in the narration map. */
  lemma {:induction false} ParagraphsKeys(texts: seq<string>)
    ensures forall key :: key in Paragraphs(texts) ==> exists i :: 1 <= i <= |texts| && key == ParagraphKey(i)
    decreases |texts|
  {
    if texts != [] {
      ParagraphsKeys(texts[..|texts| - 1]);
    }
  }

  /** A key beyond the list length is not in the narration map. */
  lemma LaterKeyAbsent(texts: seq<string>, n: nat)
    requires n > |texts|
    ensures ParagraphKey(n) !in Paragraphs(texts)
  {
    ParagraphsKeys(texts);
    forall i | 1 <= i <= |texts| ensures ParagraphKey(i) != ParagraphKey(n) {
      ParagraphKeyInjective(i, n);
    }
  }

  /** One entry per text: the narration map has as many entries as the list. */
  lemma {:induction false} ParagraphsSize(texts: seq<string>)
    ensures |Paragraphs(texts)| == |texts|
    decreases |texts|
  {
    if texts != [] {
      ParagraphsSize(texts[..|texts| - 1]);
      LaterKeyAbsent(texts[..|texts| - 1], |texts|);
    }
  }

  /** Text `i` sits under the key of position `i`. */
  lemma {:induction false} ParagraphsValues(texts: seq<string>)
    ensures forall i :: 1 <= i <= |texts| ==>
              ParagraphKey(i) in Paragraphs(texts) && Paragraphs(texts)[ParagraphKey(i)] == texts[i - 1]
    decreases |texts|
  {
    if texts != [] {
      var n := |texts|;
      var init := texts[..n - 1];
      ParagraphsValues(init);
      forall i | 1 <= i < n
        ensures ParagraphKey(i) in Paragraphs(texts) && Paragraphs(texts)[ParagraphKey(i)] == texts[i - 1]
      {
        ParagraphKeyInjective(i, n);
        assert init[i - 1] == texts[i - 1];
      }
    }
  }

  /** The narration map of the slides has exactly one entry per slide, under `s{n}paragraph1`
      for slide `n`, holding that slide's stripped script, and nothing else. */
  lemma SlideParagraphs(list: seq<SlideRecord>)
    ensures |Paragraphs(Narrations(list))| == |list|
    ensures forall i :: 1 <= i <= |list| ==>
              ParagraphKey(i) in Paragraphs(Narrations(list)) && Paragraphs(Narrations(list))[ParagraphKey(i)] == NarrationOf(list[i - 1])
    ensures forall key :: key in Paragraphs(Narrations(list)) ==> exists i :: 1 <= i <= |list| && key == ParagraphKey(i)
  {
    ParagraphsSize(Narrations(list));
    ParagraphsValues(Narrations(list));
    ParagraphsKeys(Narrations(list));
  }

  /** `restructure_slide_output`: the slides of the generated story, or none when the key is
      missing, become their narration map. */
  method RestructureSlideOutput(slides: Option<seq<SlideRecord>>) returns (structured: map<string, string>)
    ensures structured == Paragraphs(Narrations(SlidesOrEmpty(slides)))
  {
    var list := SlidesOrEmpty(slides);
    ghost var texts := Narrations(list);
    structured := map[];
    for idx := 0 to |list|
      invariant structured == Paragraphs(texts[..idx])
    {
      assert texts[..idx + 1][..idx] == texts[..idx];
      structured := structured[ParagraphKey(idx + 1) := NarrationOf(list[idx])];
    }
    assert texts[..|list|] == texts;
  }

  /** A slide list that is absent or empty gives an empty narration map. */
  lemma EmptyWithoutSlides(slides: Option<seq<SlideRecord>>)
    requires slides.None? || slides.value == []
    ensures Paragraphs(Narrations(SlidesOrEmpty(slides))) == map[]
  {
  }
}
