/**
  Python's `str(n)` for naturals, and the three index-derived key families of the
  interchange files: `s{n}paragraph1`, `slide{n}` and `audio_url{n}`.
 */
module DecimalKeys {

  /** The decimal digit character for `d`. */
  function Digit(d: nat): (c: char)
    requires d < 10
    ensures '0' <= c <= '9'
  {
    (48 + d) as char
  }

  /** `str(n)`: decimal digits, most significant first, no leading zero. */
  function Decimal(n: nat): (s: string)
    ensures |s| >= 1 && (|s| == 1 <==> n < 10)
    ensures forall k :: 0 <= k < |s| ==> '0' <= s[k] <= '9'
    ensures s[0] != '0' || n == 0
  {
    if n < 10 then [Digit(n)] else Decimal(n / 10) + [Digit(n % 10)]
  }

  /** The number a string of decimal digits denotes, most significant first. */
  function DigitsValue(s: string): nat
    requires forall k :: 0 <= k < |s| ==> '0' <= s[k] <= '9'
  {
    if s == [] then 0 else DigitsValue(s[..|s| - 1]) * 10 + (s[|s| - 1] as int - 48)
  }

  /** Reading `str(n)` back gives `n`. */
  lemma {:induction false} DecimalValue(n: nat)
    ensures DigitsValue(Decimal(n)) == n
  {
    if n >= 10 {
      var s := Decimal(n);
      assert s[..|s| - 1] == Decimal(n / 10);
      assert s[|s| - 1] == Digit(n % 10);
      DecimalValue(n / 10);
    }
  }

  /** Different naturals have different decimal renderings. */
  lemma DecimalInjective(a: nat, b: nat)
    ensures Decimal(a) == Decimal(b) ==> a == b
  {
    DecimalValue(a);
    DecimalValue(b);
  }

  /** A fixed prefix and suffix around two middles are equal only when the middles are. */
  lemma AffixCancel(p: string, a: string, b: string, q: string)
    requires p + a + q == p + b + q
    ensures a == b
  {
    assert |a| == |b|;
    assert a == (p + a + q)[|p|..|p| + |a|];
    assert b == (p + b + q)[|p|..|p| + |b|];
  }

  /** `f"s{n}paragraph1"`: the narration key of slide `n`. */
  function ParagraphKey(n: nat): string {
    "s" + Decimal(n) + "paragraph1"
  }

  /** `f"slide{n}"`: the key of slide `n` in the audio result. */
  function SlideKey(n: nat): string {
    "slide" + Decimal(n)
  }

  /** `f"audio_url{n}"`: the audio-link key inside slide `n`'s entry. */
  function AudioKey(n: nat): string {
    "audio_url" + Decimal(n)
  }

  /** The field that records the chosen voice inside each slide's entry. */
  const VoiceKey := "voice"

  /** Each slide index gets its own narration key, so a map keyed by them has one entry per slide. */
  lemma ParagraphKeyInjective(i: nat, j: nat)
    ensures ParagraphKey(i) == ParagraphKey(j) ==> i == j
  {
    if ParagraphKey(i) == ParagraphKey(j) {
      AffixCancel("s", Decimal(i), Decimal(j), "paragraph1");
      DecimalInjective(i, j);
    }
  }

  /** Each slide index gets its own slide key. */
  lemma SlideKeyInjective(i: nat, j: nat)
    ensures SlideKey(i) == SlideKey(j) ==> i == j
  {
    if SlideKey(i) == SlideKey(j) {
      AffixCancel("slide", Decimal(i), Decimal(j), "");
      DecimalInjective(i, j);
    }
  }

  /** The three fields of one audio entry never collide, whatever the indices. */
  lemma EntryKeysDistinct(i: nat, j: nat)
    ensures ParagraphKey(i) != AudioKey(j)
    ensures ParagraphKey(i) != VoiceKey
    ensures AudioKey(j) != VoiceKey
  {
    assert ParagraphKey(i)[0] == 's';
    assert AudioKey(j)[0] == 'a';
    assert VoiceKey[0] == 'v';
  }
}
