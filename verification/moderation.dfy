/** The moderation predicate `contains_inappropriate`: a case-insensitive substring test of the
    text against a fixed word list. */
module Moderation {
  import opened Strings

  const InappropriateWords: seq<string> := ["badword1", "badword2", "idiot", "stupid"]

  /** Python's `any(word in s for word in words)`. */
  function AnyOccurs(words: seq<string>, s: string): (b: bool)
    ensures b <==> exists k :: 0 <= k < |words| && Occurs(words[k], s)
  {
    if |words| == 0 then false
    else
      var rest := AnyOccurs(words[1..], s);
      assert forall k :: 1 <= k < |words| ==> words[k] == words[1..][k - 1];
      Contains(s, words[0]) || rest
  }

  /** `contains_inappropriate(text)`: some listed word occurs in the lower-cased text. */
  function ContainsInappropriate(text: string): (b: bool)
    ensures b <==> exists k :: 0 <= k < |InappropriateWords| && Occurs(InappropriateWords[k], Lower(text))
  {
    AnyOccurs(InappropriateWords, Lower(text))
  }

  /** The verdict depends on the text only up to letter case. */
  lemma ModerationIgnoresCase(text: string)
    ensures ContainsInappropriate(Lower(text)) == ContainsInappropriate(text)
  {
    LowerIdempotent(text);
  }

  /** Empty text is never flagged: every listed word is non-empty. */
  lemma EmptyTextIsClean()
    ensures !ContainsInappropriate("")
  {
  }

  /** A listed word in upper case inside a longer message is flagged. */
  lemma ShoutedWordIsFlagged()
    ensures ContainsInappropriate("You are STUPID!")
  {
    var l := Lower("You are STUPID!");
    assert l == "you are stupid!";
    assert l[8..][..6] == "stupid";
    assert StartsWith(l[8..], InappropriateWords[3]);
  }

  /** Every listed word contains a 'd', so a text without one (in any case) is never flagged. */
  lemma CleanWithoutLetterD(text: string)
    requires 'd' !in Lower(text)
    ensures !ContainsInappropriate(text)
  {
    forall k | 0 <= k < |InappropriateWords|
      ensures !Occurs(InappropriateWords[k], Lower(text))
    {
      var w := InappropriateWords[k];
      assert 'd' in w;
      MissingCharNoOccurrence(w, Lower(text), 'd');
    }
  }
}
