/**
  The Python string operations the pipeline relies on, on strings of code points:
  `str.strip` (with and without a character set), `s[:n]`, `s.split("\n")[0]` and
  `s.replace(c, "")`, together with the substring facts used to reason about them.
 */
module PyStrings {
  import opened Wrappers

  /** Python's `str.isspace()` for one code point: the characters `strip()` removes by default. */
  predicate IsSpace(c: char) {
    || ('\t' <= c <= '\r')
    || ('\U{1C}' <= c <= ' ')
    || c == '\U{85}' || c == '\U{A0}' || c == '\U{1680}'
    || ('\U{2000}' <= c <= '\U{200A}')
    || c == '\U{2028}' || c == '\U{2029}' || c == '\U{202F}' || c == '\U{205F}' || c == '\U{3000}'
  }

  /** Whether `strip(chars)` removes `c`: `chars == None` means whitespace, otherwise
      `chars` is read as a SET of characters, not as a prefix or suffix. */
  predicate Stripped(c: char, chars: Option<string>) {
    match chars
    case None => IsSpace(c)
    case Some(cs) => c in cs
  }

  /** `r` neither starts nor ends with a character that `strip(chars)` removes. */
  predicate Bare(r: string, chars: Option<string>) {
    r == [] || (!Stripped(r[0], chars) && !Stripped(r[|r| - 1], chars))
  }

  /** `r` occurs in `s` starting at index `i`. */
  ghost predicate OccursAt(s: string, r: string, i: int) {
    0 <= i && i + |r| <= |s| && s[i..i + |r|] == r
  }

  /** `r` is a contiguous substring of `s`. */
  ghost predicate IsSubstring(r: string, s: string) {
    exists i :: OccursAt(s, r, i)
  }

  /** `r` is `s` with only removable characters cut off before index `i` and after `i + |r|`. */
  ghost predicate TrimAt(s: string, r: string, i: int, chars: Option<string>) {
    && OccursAt(s, r, i)
    && (forall k :: 0 <= k < i ==> Stripped(s[k], chars))
    && (forall k :: i + |r| <= k < |s| ==> Stripped(s[k], chars))
  }

  /** The independent description of `s.strip(chars)`: a slice of `s`, everything cut off
      is removable, and nothing removable is left at either end. */
  ghost predicate Trimmed(s: string, r: string, chars: Option<string>) {
    (exists i :: TrimAt(s, r, i, chars)) && Bare(r, chars)
  }

  /** `s.lstrip(chars)` */
  function LStrip(s: string, chars: Option<string>): (r: string)
    ensures |r| <= |s| && r == s[|s| - |r|..]
    ensures forall k :: 0 <= k < |s| - |r| ==> Stripped(s[k], chars)
    ensures r == [] || !Stripped(r[0], chars)
    decreases |s|
  {
    if |s| > 0 && Stripped(s[0], chars) then LStrip(s[1..], chars) else s
  }

  /** `s.rstrip(chars)` */
  function RStrip(s: string, chars: Option<string>): (r: string)
    ensures |r| <= |s| && r == s[..|r|]
    ensures forall k :: |r| <= k < |s| ==> Stripped(s[k], chars)
    ensures r == [] || !Stripped(r[|r| - 1], chars)
    decreases |s|
  {
    if |s| > 0 && Stripped(s[|s| - 1], chars) then RStrip(s[..|s| - 1], chars) else s
  }

  /** The characters right-stripping cuts off `s[i..]` are removable ones at the end of `s`. */
  lemma RStripTail(s: string, i: nat, chars: Option<string>)
    requires i <= |s|
    ensures var r := RStrip(s[i..], chars);
            && OccursAt(s, r, i)
            && forall k :: i + |r| <= k < |s| ==> Stripped(s[k], chars)
  {
    var left := s[i..];
    var r := RStrip(left, chars);
    forall k | i + |r| <= k < |s| ensures Stripped(s[k], chars) {
      assert s[k] == left[k - i];
    }
    assert s[i..i + |r|] == left[..|r|];
  }

  /** Right-stripping what left-stripping left over cuts only removable characters off `s`. */
  lemma LeftThenRight(s: string, chars: Option<string>)
    ensures TrimAt(s, RStrip(LStrip(s, chars), chars), |s| - |LStrip(s, chars)|, chars)
  {
    var left := LStrip(s, chars);
    var i := |s| - |left|;
    assert left == s[i..];
    RStripTail(s, i, chars);
  }

  /** `s.strip(chars)`: strip the left end, then the right end. */
  function Strip(s: string, chars: Option<string>): string {
    RStrip(LStrip(s, chars), chars)
  }

  /** `s.strip()`: Python's default whitespace strip. */
  function StripSpace(s: string): string {
    Strip(s, None)
  }

  /** `Strip` meets the description of a strip: a slice of `s`, only removable characters cut
      off, none left at either end. */
  lemma StripTrims(s: string, chars: Option<string>)
    ensures Trimmed(s, Strip(s, chars), chars)
  {
    var left := LStrip(s, chars);
    var r := RStrip(left, chars);
    LeftThenRight(s, chars);
    assert r != [] ==> r[0] == left[0];
  }

  /** There is only one way to trim a string: `Strip` is the unique result described by `Trimmed`. */
  lemma TrimmedUnique(s: string, r1: string, r2: string, chars: Option<string>)
    requires Trimmed(s, r1, chars) && Trimmed(s, r2, chars)
    ensures r1 == r2
  {
    var i1 :| TrimAt(s, r1, i1, chars);
    var i2 :| TrimAt(s, r2, i2, chars);
    assert r1 != [] ==> s[i1] == r1[0] && s[i1 + |r1| - 1] == r1[|r1| - 1];
    assert r2 != [] ==> s[i2] == r2[0] && s[i2 + |r2| - 1] == r2[|r2| - 1];
    assert r1 != [] && r2 != [] ==> i1 == i2 && |r1| == |r2|;
  }

  /** Whatever satisfies the description of a strip is exactly what `Strip` returns. */
  lemma StripCharacterized(s: string, r: string, chars: Option<string>)
    requires Trimmed(s, r, chars)
    ensures Strip(s, chars) == r
  {
    StripTrims(s, chars);
    TrimmedUnique(s, r, Strip(s, chars), chars);
  }

  /** Stripping a string that is already bare changes nothing; in particular `strip` is idempotent. */
  lemma StripBare(s: string, chars: Option<string>)
    requires Bare(s, chars)
    ensures Strip(s, chars) == s
  {
    assert TrimAt(s, s, 0, chars);
    StripCharacterized(s, s, chars);
  }

  /** Removable characters around a bare, non-empty core are removed, and only they. */
  lemma StripAround(p: string, body: string, q: string, chars: Option<string>)
    requires forall k :: 0 <= k < |p| ==> Stripped(p[k], chars)
    requires forall k :: 0 <= k < |q| ==> Stripped(q[k], chars)
    requires body != [] && Bare(body, chars)
    ensures Strip(p + body + q, chars) == body
  {
    var s := p + body + q;
    assert s[|p|..|p| + |body|] == body;
    assert TrimAt(s, body, |p|, chars);
    StripCharacterized(s, body, chars);
  }

  /** A trim of `s` is a substring of `s`. */
  lemma TrimmedIsSubstring(s: string, r: string, chars: Option<string>)
    requires Trimmed(s, r, chars)
    ensures IsSubstring(r, s)
  {
    var i :| TrimAt(s, r, i, chars);
    assert OccursAt(s, r, i);
  }

  /** Every character of a substring occurs in the string. */
  lemma SubstringChars(r: string, s: string)
    requires IsSubstring(r, s)
    ensures forall c :: c in r ==> c in s
  {
    var i :| OccursAt(s, r, i);
    forall c | c in r ensures c in s {
      var k :| 0 <= k < |r| && r[k] == c;
      assert s[i + k] == c;
    }
  }

  /** A substring of a substring is a substring. */
  lemma SubstringTransitive(a: string, b: string, c: string)
    requires IsSubstring(a, b) && IsSubstring(b, c)
    ensures IsSubstring(a, c)
  {
    var i :| OccursAt(b, a, i);
    var j :| OccursAt(c, b, j);
    forall k | 0 <= k < |a| ensures c[j + i + k] == a[k] {
      assert a[k] == b[i + k] == c[j + i + k];
    }
    assert c[j + i..j + i + |a|] == a;
    assert OccursAt(c, a, j + i);
  }

  /** `s[:n]`: at most the first `n` characters. */
  function Take(s: string, n: nat): (r: string)
    ensures |r| == if |s| <= n then |s| else n
    ensures r == s[..|r|]
  {
    if |s| <= n then s else s[..n]
  }

  /** `s.split("\n")[0]`: everything before the first line feed (all of `s` if there is none). */
  function FirstLine(s: string): (r: string)
    ensures |r| <= |s| && r == s[..|r|]
    ensures '\n' !in r
    ensures |r| < |s| ==> s[|r|] == '\n'
  {
    if s == [] || s[0] == '\n' then [] else [s[0]] + FirstLine(s[1..])
  }

  /** A string without a line feed is its own first line. */
  lemma FirstLineWhole(s: string)
    requires '\n' !in s
    ensures FirstLine(s) == s
  {
    assert forall k :: 0 <= k < |s| ==> s[k] != '\n';
  }

  /** The first line of `line + "\n" + rest` is `line`, whatever follows. */
  lemma FirstLineOf(line: string, rest: string)
    requires '\n' !in line
    ensures FirstLine(line + "\n" + rest) == line
  {
    var s := line + "\n" + rest;
    var r := FirstLine(s);
    forall k | 0 <= k < |line| ensures s[k] != '\n' {
      assert s[k] == line[k];
    }
    assert s[|line|] == '\n';
    assert '\n' in s[..|line| + 1];
    assert r == s[..|line|] == line;
  }

  /** `s.replace(c, "")`: every occurrence of `c` deleted, every other character kept. */
  function RemoveAll(s: string, c: char): (r: string)
    ensures c !in r
    ensures forall x :: x in r ==> x in s
    ensures |r| <= |s|
    ensures c !in s ==> r == s
    ensures multiset(r) == multiset(s)[c := 0]
  {
    if s == [] then []
    else
      assert s == [s[0]] + s[1..];
      (if s[0] == c then [] else [s[0]]) + RemoveAll(s[1..], c)
  }

  /** A single character is deleted when it is `c` and kept otherwise; with `RemoveAllConcat`
      this fixes the order of what is kept. */
  lemma RemoveAllSingle(x: char, c: char)
    ensures RemoveAll([x], c) == if x == c then [] else [x]
  {
    assert [x][1..] == [];
  }

  /** Deleting a character distributes over concatenation. */
  lemma {:induction false} RemoveAllConcat(a: string, b: string, c: char)
    ensures RemoveAll(a + b, c) == RemoveAll(a, c) + RemoveAll(b, c)
  {
    if a != [] {
      assert (a + b)[1..] == a[1..] + b;
      RemoveAllConcat(a[1..], b, c);
    } else {
      assert a + b == b;
    }
  }
}
