/** The hard safety gate: a keyword scan for self-harm phrases (app.py, `contains_self_harm`). */
module Safety {
  import opened Text

  /** `SELF_HARM_KEYWORDS`, in the order the source lists them. */
  const SELF_HARM_KEYWORDS: seq<string> := [
    "marna",
    "marna chahti",
    "want to die",
    "kill myself",
    "suicide",
    "end my life",
    "give up on life"
  ]

  /** The shortest keyword has five characters. */
  lemma KeywordsAtLeastFive()
    ensures forall k :: k in SELF_HARM_KEYWORDS ==> |k| >= 5
  {
  }

  /** Python's `any(k in text for k in keywords)`: the first hit ends the scan. */
  function AnyOccurs(keywords: seq<string>, text: string): (b: bool)
    ensures b <==> exists k :: k in keywords && Occurs(k, text)
  {
    if keywords == [] then
      false
    else if Occurs(keywords[0], text) then
      assert keywords[0] in keywords;
      true
    else
      var rest := AnyOccurs(keywords[1..], text);
      assert forall k :: k in keywords <==> k == keywords[0] || k in keywords[1..];
      rest
  }

  /** The text, lower-cased, contains one of the keywords. */
  function ContainsSelfHarm(text: string): (b: bool)
    ensures b <==> exists k :: k in SELF_HARM_KEYWORDS && Occurs(k, Lower(text))
  {
    AnyOccurs(SELF_HARM_KEYWORDS, Lower(text))
  }

  /** The verdict does not depend on the case of ASCII letters. */
  lemma CaseInsensitive(s: string, t: string)
    requires SameIgnoringCase(s, t)
    ensures ContainsSelfHarm(s) == ContainsSelfHarm(t)
  {
    LowerRespectsCase(s, t);
  }

  /** Shouting a message does not get it past the gate. */
  lemma UpperCaseSameVerdict(s: string)
    ensures ContainsSelfHarm(Upper(s)) == ContainsSelfHarm(s)
  {
    UpperSameIgnoringCase(s);
    CaseInsensitive(s, Upper(s));
  }

  /** Messages shorter than the shortest keyword, the empty default among them, pass. */
  lemma ShortTextNotFlagged(text: string)
    requires |text| < 5
    ensures !ContainsSelfHarm(text)
  {
    forall k | k in SELF_HARM_KEYWORDS
      ensures !Occurs(k, Lower(text))
    {
      KeywordsAtLeastFive();
      TooLongNeverOccurs(k, Lower(text));
    }
  }

  /** The empty message, which is what a missing `message` field becomes, is not flagged. */
  lemma EmptyNotFlagged()
    ensures !ContainsSelfHarm("")
  {
    ShortTextNotFlagged("");
  }

  /** A flagged text stays flagged whatever is written around it. */
  lemma FlaggedInContext(pre: string, text: string, post: string)
    requires ContainsSelfHarm(text)
    ensures ContainsSelfHarm(pre + text + post)
  {
    var k :| k in SELF_HARM_KEYWORDS && Occurs(k, Lower(text));
    LowerConcat(pre, text);
    LowerConcat(pre + text, post);
    OccursInContext(k, Lower(pre), Lower(text), Lower(post));
  }

  /** A phrase from the list inside a longer lower-case sentence is caught. */
  lemma KeywordInSentenceFlagged()
    ensures ContainsSelfHarm("i think i want to die today")
  {
    var u := "i think i want to die today";
    LowerWithoutCapitals(u);
    assert u[10..21] == "want to die";
    assert OccursAt("want to die", Lower(u), 10);
    assert "want to die" in SELF_HARM_KEYWORDS;
  }

  /** The same phrase written with capitals is caught too. */
  lemma MixedCaseKeywordFlagged()
    ensures ContainsSelfHarm("I think I Want To Die today")
  {
    var t, u := "I think I Want To Die today", "i think i want to die today";
    KeywordInSentenceFlagged();
    assert SameIgnoringCase(t, u);
    CaseInsensitive(t, u);
  }
}
