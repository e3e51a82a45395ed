/**
  How the two halves of the application meet: the narration map written by the story tab is
  read back by the audio tab, whose numbering starts at 2, so every narration moves up one
  slide.
 */
module Pipeline {
  import opened DecimalKeys
  import opened Restructurer
  import opened TtsUploader

  /** The narration stored for slide `n` (under `s{n}paragraph1`) is spoken as slide `n + 1`
      and recorded there under `s{n+1}paragraph1`, when the map is read back in the order it
      was written. */
  lemma NarrationMovesUpOneSlide(list: seq<SlideRecord>, voice: string, cfg: Config, svc: Services, n: nat)
    requires 1 <= n <= |list|
    ensures var texts := Narrations(list);
            var audio := Entries(texts, voice, cfg, svc, |texts|);
            && ParagraphKey(n) in Paragraphs(texts)
            && SlideKey(n + 1) in audio
            && ParagraphKey(n + 1) in audio[SlideKey(n + 1)]
            && audio[SlideKey(n + 1)][ParagraphKey(n + 1)] == Paragraphs(texts)[ParagraphKey(n)]
  {
    var texts := Narrations(list);
    ParagraphsValues(texts);
    EntriesValues(texts, voice, cfg, svc, |texts|);
    SlideEntryShape(n + 1, texts[n - 1], CdnUrl(cfg, svc, n + 1), voice);
  }
}
