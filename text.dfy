/**
 * The three pieces of Python's `str` that the webhook relies on:
 * `needle in hay` (substring test), `str.lower()` and `str.strip()`.
 */
module Text {

  // ---------------------------------------------------------------------------
  // Substring test: Python's `needle in hay`
  // ---------------------------------------------------------------------------

  /** `needle` sits in `hay` starting at index `i`. */
  predicate OccursAt(needle: string, hay: string, i: int) {
    0 <= i && i + |needle| <= |hay| && hay[i..i + |needle|] == needle
  }

  /** Python's `needle in hay` on strings: some slice of `hay` equals `needle`. */
  function Occurs(needle: string, hay: string): (b: bool)
    ensures b <==> exists i :: OccursAt(needle, hay, i)
    decreases |hay|
  {
    if |needle| <= |hay| && hay[..|needle|] == needle then
      assert OccursAt(needle, hay, 0);
      true
    else if hay == [] then
      false
    else
      var rest := Occurs(needle, hay[1..]);
      OccursAtTail(needle, hay);
      rest
  }

  /** Past the first position, the occurrences in `hay` are those in its tail, shifted by one. */
  lemma {:induction false} OccursAtTail(needle: string, hay: string)
    requires hay != []
    ensures forall i :: OccursAt(needle, hay, i) && i > 0 ==> OccursAt(needle, hay[1..], i - 1)
    ensures forall i :: OccursAt(needle, hay[1..], i) ==> OccursAt(needle, hay, i + 1)
  {
    forall i | OccursAt(needle, hay, i) && i > 0
      ensures OccursAt(needle, hay[1..], i - 1)
    {
      TailSlice(hay, i - 1, i - 1 + |needle|);
    }
    forall i | OccursAt(needle, hay[1..], i)
      ensures OccursAt(needle, hay, i + 1)
    {
      TailSlice(hay, i, i + |needle|);
    }
  }

  /** A slice of the tail is the slice of the whole, one position further on. */
  lemma TailSlice<X>(s: seq<X>, lo: int, hi: int)
    requires s != [] && 0 <= lo <= hi <= |s| - 1
    ensures s[1..][lo..hi] == s[lo + 1..hi + 1]
  {
  }

  /** An occurrence inside `a` is still an occurrence once text is put on either side. */
  lemma OccursInContext(needle: string, pre: string, a: string, post: string)
    requires Occurs(needle, a)
    ensures Occurs(needle, pre + a + post)
  {
    var i :| OccursAt(needle, a, i);
    var s := pre + a + post;
    assert s[|pre| + i..|pre| + i + |needle|] == a[i..i + |needle|];
    assert OccursAt(needle, s, |pre| + i);
  }

  /** A needle longer than the haystack never occurs in it. */
  lemma TooLongNeverOccurs(needle: string, hay: string)
    requires |hay| < |needle|
    ensures !Occurs(needle, hay)
  {
  }

  // ---------------------------------------------------------------------------
  // Case mapping: `str.lower()` restricted to ASCII letters
  // ---------------------------------------------------------------------------

  predicate IsAsciiUpper(c: char) { 'A' <= c <= 'Z' }

  predicate IsAsciiLower(c: char) { 'a' <= c <= 'z' }

  /** Lower-cases an ASCII capital; every other character is left alone. */
  function LowerChar(c: char): char {
    if IsAsciiUpper(c) then (c as int + 32) as char else c
  }

  /** Upper-cases an ASCII small letter; used to state case-insensitivity. */
  function UpperChar(c: char): char {
    if IsAsciiLower(c) then (c as int - 32) as char else c
  }

  /**
   * What a case map promises: lower-casing leaves no ASCII capital, is
   * idempotent, and forgets whatever upper-casing did; upper-casing likewise
   * forgets lower-casing.
   */
  lemma CaseMaps(c: char)
    ensures !IsAsciiUpper(LowerChar(c)) && LowerChar(LowerChar(c)) == LowerChar(c)
    ensures LowerChar(UpperChar(c)) == LowerChar(c)
    ensures UpperChar(LowerChar(c)) == UpperChar(c)
  {
  }

  function Lower(s: string): string {
    seq(|s|, i requires 0 <= i < |s| => LowerChar(s[i]))
  }

  function Upper(s: string): string {
    seq(|s|, i requires 0 <= i < |s| => UpperChar(s[i]))
  }

  /** `a` and `b` are the same character, or the capital and small form of one ASCII letter. */
  predicate SameUpToCase(a: char, b: char) {
    a == b ||
    (IsAsciiUpper(a) && b as int == a as int + 32) ||
    (IsAsciiUpper(b) && a as int == b as int + 32)
  }

  /** `s` and `t` differ at most in the case of ASCII letters, position by position. */
  predicate SameIgnoringCase(s: string, t: string) {
    |s| == |t| && forall i :: 0 <= i < |s| ==> SameUpToCase(s[i], t[i])
  }

  /** Re-casing ASCII letters does not change the lower-cased string. */
  lemma LowerRespectsCase(s: string, t: string)
    requires SameIgnoringCase(s, t)
    ensures Lower(s) == Lower(t)
  {
  }

  /** A string without ASCII capitals is its own lower-cased form. */
  lemma LowerWithoutCapitals(s: string)
    requires forall i :: 0 <= i < |s| ==> !IsAsciiUpper(s[i])
    ensures Lower(s) == s
  {
  }

  /** Upper-casing a string changes nothing but the case of its ASCII letters. */
  lemma UpperSameIgnoringCase(s: string)
    ensures SameIgnoringCase(s, Upper(s))
  {
  }

  /** Lower-casing distributes over concatenation. */
  lemma LowerConcat(a: string, b: string)
    ensures Lower(a + b) == Lower(a) + Lower(b)
  {
  }

  // ---------------------------------------------------------------------------
  // Whitespace trimming: `str.strip()` with no argument
  // ---------------------------------------------------------------------------

  /**
   * Python's `str.isspace` for a single character: general category Zs, or
   * bidirectional class WS, B or S.  That is U+0009..U+000D, U+001C..U+0020,
   * U+0085, U+00A0, U+1680, U+2000..U+200A, U+2028, U+2029, U+202F, U+205F and
   * U+3000.
   */
  predicate IsSpace(c: char) {
    var n := c as int;
    (0x09 <= n <= 0x0D) || (0x1C <= n <= 0x20) || n == 0x85 || n == 0xA0 ||
    n == 0x1680 || (0x2000 <= n <= 0x200A) || n == 0x2028 || n == 0x2029 ||
    n == 0x202F || n == 0x205F || n == 0x3000
  }

  predicate AllSpace(s: string) {
    forall i :: 0 <= i < |s| ==> IsSpace(s[i])
  }

  /** No whitespace at either end: what `strip` always returns. */
  predicate Trimmed(s: string) {
    s == [] || (!IsSpace(s[0]) && !IsSpace(s[|s| - 1]))
  }

  /** Drops leading whitespace: the result is a suffix of `s` preceded only by whitespace. */
  function StripLeading(s: string): (r: string)
    ensures |r| <= |s| && r == s[|s| - |r|..]
    ensures AllSpace(s[..|s| - |r|])
    ensures r == [] || !IsSpace(r[0])
  {
    if |s| > 0 && IsSpace(s[0]) then
      var r := StripLeading(s[1..]);
      assert s[..|s| - |r|] == [s[0]] + s[1..][..|s| - 1 - |r|];
      r
    else
      s
  }

  /** Drops trailing whitespace: the result is a prefix of `s` followed only by whitespace. */
  function StripTrailing(s: string): (r: string)
    ensures |r| <= |s| && r == s[..|r|]
    ensures AllSpace(s[|r|..])
    ensures r == [] || !IsSpace(r[|r| - 1])
  {
    if |s| > 0 && IsSpace(s[|s| - 1]) then
      var r := StripTrailing(s[..|s| - 1]);
      assert s[|r|..] == s[..|s| - 1][|r|..] + [s[|s| - 1]];
      r
    else
      s
  }

  /** Python's `s.strip()`: removes whitespace from both ends. */
  function Strip(s: string): (r: string)
    ensures Trimmed(r)
    ensures |r| <= |s|
  {
    var r := StripTrailing(StripLeading(s));
    assert r != [] ==> r[0] == StripLeading(s)[0];
    r
  }

  /** Leading whitespace in front of a text that does not start with whitespace is exactly what is dropped. */
  lemma {:induction false} StripLeadingPadded(pre: string, t: string)
    requires AllSpace(pre)
    requires t == [] || !IsSpace(t[0])
    ensures StripLeading(pre + t) == t
  {
    if pre == [] {
      assert pre + t == t;
    } else {
      assert (pre + t)[1..] == pre[1..] + t;
      StripLeadingPadded(pre[1..], t);
    }
  }

  /** Trailing whitespace after a text that does not end with whitespace is exactly what is dropped. */
  lemma {:induction false} StripTrailingPadded(t: string, post: string)
    requires AllSpace(post)
    requires t == [] || !IsSpace(t[|t| - 1])
    ensures StripTrailing(t + post) == t
  {
    if post == [] {
      assert t + post == t;
    } else {
      var s := t + post;
      assert s[..|s| - 1] == t + post[..|post| - 1];
      StripTrailingPadded(t, post[..|post| - 1]);
    }
  }

  /** `strip` undoes any whitespace padding of a trimmed text. */
  lemma {:induction false} StripPadded(pre: string, t: string, post: string)
    requires AllSpace(pre) && AllSpace(post) && Trimmed(t)
    ensures Strip(pre + t + post) == t
  {
    if t == [] {
      assert pre + t + post == pre + post;
      StripLeadingPadded(pre + post, []);
      assert pre + post + [] == pre + post;
    } else {
      assert pre + t + post == pre + (t + post);
      StripLeadingPadded(pre, t + post);
      StripTrailingPadded(t, post);
    }
  }

  /** The whitespace that `StripLeading` removes. */
  lemma LeadingParts(s: string) returns (pre: string)
    ensures AllSpace(pre) && s == pre + StripLeading(s)
  {
    var m := StripLeading(s);
    pre := s[..|s| - |m|];
    SplitAt(s, |s| - |m|);
  }

  /** The whitespace that `StripTrailing` removes. */
  lemma TrailingParts(s: string) returns (post: string)
    ensures AllSpace(post) && s == StripTrailing(s) + post
  {
    var r := StripTrailing(s);
    post := s[|r|..];
    SplitAt(s, |r|);
  }

  /** The whitespace that `strip` removes in front of and behind the text it keeps. */
  lemma {:induction false} StripParts(s: string) returns (pre: string, post: string)
    ensures AllSpace(pre) && AllSpace(post)
    ensures s == pre + Strip(s) + post
  {
    var m := StripLeading(s);
    pre := LeadingParts(s);
    post := TrailingParts(m);
    var r := StripTrailing(m);
    assert Strip(s) == r;
    ConcatAssoc(pre, r, post);
  }

  lemma ConcatAssoc<X>(a: seq<X>, b: seq<X>, c: seq<X>)
    ensures a + (b + c) == a + b + c
  {
  }

  /** Every string is its stripped form with whitespace on either side. */
  lemma {:induction false} StripSplits(s: string)
    ensures exists pre, post :: AllSpace(pre) && AllSpace(post) && s == pre + Strip(s) + post
  {
    var pre, post := StripParts(s);
  }

  /** Cutting a sequence at `k` and gluing the halves gives it back. */
  lemma SplitAt<X>(s: seq<X>, k: nat)
    requires k <= |s|
    ensures s == s[..k] + s[k..]
  {
  }

  /** `strip` is idempotent. */
  lemma {:induction false} StripIdempotent(s: string)
    ensures Strip(Strip(s)) == Strip(s)
  {
    var t := Strip(s);
    assert [] + t + [] == t;
    StripPadded([], t, []);
  }

  /** The stripped texts are exactly the trimmed texts padded with whitespace. */
  lemma {:induction false} StripIsTokenIff(s: string, t: string)
    requires Trimmed(t)
    ensures Strip(s) == t <==> exists pre, post :: AllSpace(pre) && AllSpace(post) && s == pre + t + post
  {
    if Strip(s) == t {
      StripSplits(s);
    }
    if exists pre, post :: AllSpace(pre) && AllSpace(post) && s == pre + t + post {
      var pre, post :| AllSpace(pre) && AllSpace(post) && s == pre + t + post;
      StripPadded(pre, t, post);
    }
  }
}
