/**
 * The relevance score of a sample post:
 * "Check out this link in bio tool for creators" searched for
 * "link in bio" holds two product keywords and the query once, so it
 * scores 2 * 0.2 + 0.3.
 *
 * Facts about the literal text are gathered in `ExampleText`, a few per
 * lemma; the rest of the argument works from those facts alone, so that
 * the verifier never has to evaluate a string function on the literal.
 * Each keyword the text lacks is ruled out by two or three of its
 * characters that never stand side by side in the text.
 */
module ExampleText {
  import opened Text

  /** The example text, lower-cased. */
  const Lowered := "check out this link in bio tool for creators"

  /** What the argument needs to know of the lower-cased example text. */
  predicate Facts(t: string) {
    && StandsAt(t, "link in bio tool", 15) && StandsAt(t, "link in bio", 15)
    && NoPair(t, 'k', 't') && NoPair(t, 't', 'r') && NoPair(t, ' ', 'p') && NoPair(t, 'l', 's')
    && NoPair(t, 's', 'o') && NoPair(t, 'p', 'e') && NoPair(t, 'n', 'f') && NoPair(t, 'c', 'o')
    && NoTriple(t, 'o', ' ', 'l') && NoTriple(t, 'k', ' ', 'b') && NoTriple(t, 'i', 'o', 'l')
    && (forall i :: 0 <= i < 15 ==> t[i] != 'l')
    && NoPair(t[26..], 'l', 'i')
  }

  lemma StandsLong(t: string)
    requires t == "check out this link in bio tool for creators"
    ensures StandsAt(t, "link in bio tool", 15)
  {
  }

  lemma StandsShort(t: string)
    requires t == "check out this link in bio tool for creators"
    ensures StandsAt(t, "link in bio", 15)
  {
  }

  lemma NoEarlyL(t: string)
    requires t == "check out this link in bio tool for creators"
    ensures forall i :: 0 <= i < 15 ==> t[i] != 'l'
  {
  }

  lemma NoLiLate(t: string)
    requires t == "check out this link in bio tool for creators"
    ensures NoPair(t[26..], 'l', 'i')
  {
  }

  lemma NoKt(t: string)
    requires t == "check out this link in bio tool for creators"
    ensures NoPair(t, 'k', 't')
  {
  }

  lemma NoTr(t: string)
    requires t == "check out this link in bio tool for creators"
    ensures NoPair(t, 't', 'r')
  {
  }

  lemma NoSpaceP(t: string)
    requires t == "check out this link in bio tool for creators"
    ensures NoPair(t, ' ', 'p')
  {
  }

  lemma NoLs(t: string)
    requires t == "check out this link in bio tool for creators"
    ensures NoPair(t, 'l', 's')
  {
  }

  lemma NoSo(t: string)
    requires t == "check out this link in bio tool for creators"
    ensures NoPair(t, 's', 'o')
  {
  }

  lemma NoPe(t: string)
    requires t == "check out this link in bio tool for creators"
    ensures NoPair(t, 'p', 'e')
  {
  }

  lemma NoNf(t: string)
    requires t == "check out this link in bio tool for creators"
    ensures NoPair(t, 'n', 'f')
  {
  }

  lemma NoCo(t: string)
    requires t == "check out this link in bio tool for creators"
    ensures NoPair(t, 'c', 'o')
  {
  }

  lemma NoOSpaceL(t: string)
    requires t == "check out this link in bio tool for creators"
    ensures NoTriple(t, 'o', ' ', 'l')
  {
  }

  lemma NoKSpaceB(t: string)
    requires t == "check out this link in bio tool for creators"
    ensures NoTriple(t, 'k', ' ', 'b')
  {
  }

  lemma NoIol(t: string)
    requires t == "check out this link in bio tool for creators"
    ensures NoTriple(t, 'i', 'o', 'l')
  {
  }

  lemma LoweredFacts(t: string)
    requires t == Lowered
    ensures Facts(t)
  {
    StandsLong(t);
    StandsShort(t);
    NoEarlyL(t);
    NoLiLate(t);
    NoKt(t);
    NoTr(t);
    NoSpaceP(t);
    NoLs(t);
    NoSo(t);
    NoPe(t);
    NoNf(t);
    NoCo(t);
    NoOSpaceL(t);
    NoKSpaceB(t);
    NoIol(t);
  }

  /** `lower()` of a string whose first character lowers to `t[0]` and whose rest is the capital-free rest of `t`. */
  lemma LowerFirst(text: string, t: string)
    requires |text| == |t| > 0 && LowerChar(text[0]) == t[0]
    requires forall i :: 1 <= i < |t| ==> text[i] == t[i]
    requires forall i :: 0 <= i < |t| ==> !('A' <= t[i] <= 'Z')
    ensures Lower(text) == t
  {
    assert forall i :: 0 <= i < |t| ==> Lower(text)[i] == t[i];
  }

  lemma SameFront(text: string, t: string)
    requires text == "Check out this link in bio tool for creators" && t == Lowered
    ensures |text| == |t| && forall i :: 1 <= i < 22 ==> text[i] == t[i]
    ensures LowerChar(text[0]) == t[0]
  {
  }

  lemma SameBack(text: string, t: string)
    requires text == "Check out this link in bio tool for creators" && t == Lowered
    ensures forall i :: 22 <= i < |t| ==> text[i] == t[i]
  {
  }

  lemma NoCapitals(t: string)
    requires t == Lowered
    ensures forall i :: 0 <= i < |t| ==> !('A' <= t[i] <= 'Z')
  {
  }

  lemma LowerExample(text: string, t: string)
    requires text == "Check out this link in bio tool for creators" && t == Lowered
    ensures Lower(text) == t
  {
    SameFront(text, t);
    SameBack(text, t);
    NoCapitals(t);
    LowerFirst(text, t);
  }
}

module DiscoveryExamples {
  import opened Text
  import opened Discovery
  import opened ExampleText

  lemma PresentKeywords(t: string)
    requires Facts(t)
    ensures Contains(t, ProductKeywords[0]) && Contains(t, ProductKeywords[8])
  {
    ContainsAt(t, "link in bio", 15);
    ContainsAt(t, "link in bio tool", 15);
  }

  lemma AbsentKeywordsA(t: string)
    requires Facts(t)
    ensures !Contains(t, ProductKeywords[1]) && !Contains(t, ProductKeywords[2]) && !Contains(t, ProductKeywords[3])
    ensures !Contains(t, ProductKeywords[4])
  {
    NotContainsPair(t, "linktree", 3);
    NotContainsPair(t, "link tree", 5);
    NotContainsTriple(t, "bio link", 2);
    NotContainsPair(t, "link page", 4);
  }

  lemma AbsentKeywordsB(t: string)
    requires Facts(t)
    ensures !Contains(t, ProductKeywords[5]) && !Contains(t, ProductKeywords[6]) && !Contains(t, ProductKeywords[7])
  {
    NotContainsTriple(t, "link bio", 3);
    NotContainsTriple(t, "biolink", 1);
    NotContainsPair(t, "linktree alternative", 3);
  }

  lemma AbsentKeywordsC(t: string)
    requires Facts(t)
    ensures !Contains(t, ProductKeywords[9]) && !Contains(t, ProductKeywords[10]) && !Contains(t, ProductKeywords[11])
  {
    NotContainsPair(t, "creator tools", 11);
    NotContainsPair(t, "social media links", 0);
    NotContainsPair(t, "personal brand", 0);
  }

  lemma AbsentKeywordsD(t: string)
    requires Facts(t)
    ensures !Contains(t, ProductKeywords[12]) && !Contains(t, ProductKeywords[13])
  {
    NotContainsPair(t, "influencer", 1);
    NotContainsPair(t, "content creator", 0);
  }

  /** Which product keywords occur in a text with these facts: the first and the ninth. */
  lemma ExampleKeywords(t: string)
    requires Facts(t)
    ensures HitIndices(t, ProductKeywords) == {0, 8}
  {
    PresentKeywords(t);
    AbsentKeywordsA(t);
    AbsentKeywordsB(t);
    AbsentKeywordsC(t);
    AbsentKeywordsD(t);
    forall k | k in HitIndices(t, ProductKeywords) ensures k == 0 || k == 8 {
      assert k == 0 || k == 1 || k == 2 || k == 3 || k == 4 || k == 5 || k == 6 || k == 7
        || k == 8 || k == 9 || k == 10 || k == 11 || k == 12 || k == 13;
    }
  }

  /** The query "link in bio" occurs exactly once in such a text. */
  lemma ExampleQuery(t: string)
    requires Facts(t)
    ensures Contains(t, "link in bio") && CountOcc(t, "link in bio") == 1
  {
    ContainsAt(t, "link in bio", 15);
    NotContainsPair(t[26..], "link in bio", 0);
    CountOccOnce(t, "link in bio", 15);
  }

  /** A text whose lower-cased form has these facts scores 0.7 for a query that lower-cases to "link in bio". */
  lemma RelevanceOfFacts(text: string, query: string)
    requires text != "" && Facts(Lower(text)) && Lower(query) == "link in bio"
    ensures Relevance(text, query) == 0.7
  {
    ExampleKeywords(Lower(text));
    KeywordHitsCount(Lower(text), ProductKeywords);
    ExampleQuery(Lower(text));
  }

  lemma RelevanceExample(text: string, query: string)
    requires text == "Check out this link in bio tool for creators"
    requires query == "link in bio"
    ensures Relevance(text, query) == 0.7
  {
    LowerExample(text, Lowered);
    LoweredFacts(Lowered);
    LowerNoCapitals(query);
    RelevanceOfFacts(text, query);
  }
}
