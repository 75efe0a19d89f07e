/**
 * The FAQ matcher on the inputs of the repository's unit tests.  Each
 * concrete input is passed in as a parameter constrained to a literal, so
 * that the verifier unfolds the string functions only as far as the proof
 * steps ask.
 */
module FaqExamples {
  import opened Text
  import opened FaqMatcher
  import opened Models
  import opened Wrappers

  lemma Cons1<T>(a: T, b: T) ensures [a] + [b] == [a, b] {}
  lemma Cons2<T>(a: T, b: T, c: T) ensures [a] + [b, c] == [a, b, c] {}
  lemma Cons3<T>(a: T, b: T, c: T, d: T) ensures [a] + [b, c, d] == [a, b, c, d] {}

  lemma Seq3<T>(p: seq<T>, a: T, b: T, c: T)
    requires |p| == 3 && p[0] == a && p[1] == b && p[2] == c
    ensures p == [a, b, c]
  {
  }

  /** A word followed by one blank and more text is the first token of `split()`. */
  lemma WordsSpaced(a: string, rest: string)
    requires IsWord(a)
    ensures Words(a + " " + rest) == [a] + Words(rest)
  {
    assert a + " " + rest == a + ([' '] + rest);
    WordsCons(a, [' '] + rest);
    WordsSkipSpace(' ', rest);
  }

  /** A single word splits into itself. */
  lemma WordsOne(a: string)
    requires IsWord(a)
    ensures Words(a) == [a]
  {
    WordsCons(a, []);
    assert a + [] == a;
  }

  /** Four words joined by single blanks split back into those four words. */
  lemma WordsFour(a: string, b: string, c: string, d: string)
    requires IsWord(a) && IsWord(b) && IsWord(c) && IsWord(d)
    ensures Words(a + " " + (b + " " + (c + " " + d))) == [a, b, c, d]
  {
    var t3 := c + " " + d;
    var t2 := b + " " + t3;
    WordsOne(d);
    WordsSpaced(c, d);
    Cons1(c, d);
    WordsSpaced(b, t3);
    Cons2(b, c, d);
    WordsSpaced(a, t2);
    Cons3(a, b, c, d);
  }

  lemma WordSetFour(s: string, a: string, b: string, c: string, d: string)
    requires IsWord(a) && IsWord(b) && IsWord(c) && IsWord(d)
    requires s == a + " " + (b + " " + (c + " " + d))
    ensures WordSet(s) == {a, b, c, d}
  {
    WordsFour(a, b, c, d);
    ElementsFour(Words(s), a, b, c, d);
  }

  lemma ElementsFour<T>(ws: seq<T>, a: T, b: T, c: T, d: T)
    requires ws == [a, b, c, d]
    ensures (set w | w in ws) == {a, b, c, d}
  {
  }

  lemma LowerItWorks(x: string)
    requires x == "How does it work?"
    ensures Lower(x) == "how" + " " + ("does" + " " + ("it" + " " + "work?"))
  {
    var rest := " " + ("does" + " " + ("it" + " " + "work?"));
    assert x == "How" + rest;
    LowerNoCapitals(rest);
    LowerAppend("How", rest);
    assert Lower("How") == "how";
  }

  lemma LowerThisWorks(x: string)
    requires x == "How does this work?"
    ensures Lower(x) == "how" + " " + ("does" + " " + ("this" + " " + "work?"))
  {
    var rest := " " + ("does" + " " + ("this" + " " + "work?"));
    assert x == "How" + rest;
    LowerNoCapitals(rest);
    LowerAppend("How", rest);
    assert Lower("How") == "how";
  }

  lemma SharedThree(q: set<string>, w: set<string>)
    requires q == {"how", "does", "it", "work?"}
    requires w == {"how", "does", "this", "work?"}
    ensures |q| == 4 && |w| == 4 && |q * w| == 3
  {
    assert q * w == {"how", "does", "work?"};
  }

  lemma ThreeQuarters(n: nat, d: nat)
    requires n == 3 && d == 4
    ensures n as real / d as real == 0.75
  {
  }

  lemma SimilarityOfCounts(q: set<string>, w: set<string>)
    requires |q| == 4 && |w| == 4 && |q * w| == 3
    ensures SetSimilarity(q, w) == 0.75
  {
    assert Max(|q|, |w|) == 4;
    ThreeQuarters(|q * w|, Max(|q|, |w|));
  }

  /**
   * The similarity test: the two questions share three of their four
   * tokens ("how", "does", "work?"), so the score is 0.75, in particular
   * positive.
   */
  lemma SimilarityTest(x: string, y: string)
    requires x == "How does it work?" && y == "How does this work?"
    ensures TextSimilarity(x, y) == 0.75
  {
    assert IsWord("how") && IsWord("does") && IsWord("it") && IsWord("this") && IsWord("work?");
    LowerItWorks(x);
    LowerThisWorks(y);
    WordSetFour(Lower(x), "how", "does", "it", "work?");
    WordSetFour(Lower(y), "how", "does", "this", "work?");
    SharedThree(WordSet(Lower(x)), WordSet(Lower(y)));
    SimilarityOfCounts(WordSet(Lower(x)), WordSet(Lower(y)));
  }

  lemma SplitHowWorkProduct(k: string)
    requires k == "how, work, product"
    ensures Split(k, ',') == ["how", " work", " product"]
  {
    assert Join(["how", " work", " product"], ',') == k;
    SplitJoin(["how", " work", " product"], ',');
  }

  lemma QueryStartsWithHow(q: string)
    requires q == "How does this product work?"
    ensures Contains(Lower(q), "how")
  {
    var t := Lower(q);
    assert t[..3] == "how";
    IsPrefixIff("how", t);
  }

  /** The first keyword test: "how" occurs in the query, so the score is positive. */
  lemma KeywordMatchTest(q: string, k: string)
    requires q == "How does this product work?" && k == "how, work, product"
    ensures KeywordScore(q, k) > 0.0
  {
    SplitHowWorkProduct(k);
    PieceOf("how");
    QueryStartsWithHow(q);
    var pieces := KeywordPieces(k);
    assert Contains(Lower(q), pieces[0]);
    KeywordScoreCases(q, k);
  }

  lemma SplitPricingCostBuy(k: string)
    requires k == "pricing, cost, buy"
    ensures Split(k, ',') == ["pricing", " cost", " buy"]
  {
    assert Join(["pricing", " cost", " buy"], ',') == k;
    SplitJoin(["pricing", " cost", " buy"], ',');
  }

  /** A lower-case word without surrounding blanks is its own keyword piece. */
  lemma PieceOf(w: string)
    requires w != [] && !IsSpace(w[0]) && !IsSpace(w[|w| - 1])
    requires forall i :: 0 <= i < |w| ==> !('A' <= w[i] <= 'Z')
    ensures Lower(Strip(w)) == w
  {
    LowerNoCapitals(w);
    StripTrimmed(w);
  }

  /** The same word after one blank, as it follows a comma, gives the same piece. */
  lemma PieceAfterBlank(w: string)
    requires w != [] && !IsSpace(w[0]) && !IsSpace(w[|w| - 1])
    requires forall i :: 0 <= i < |w| ==> !('A' <= w[i] <= 'Z')
    ensures Lower(Strip([' '] + w)) == w
  {
    StripSkipSpace(' ', w);
    PieceOf(w);
  }

  lemma PiecesPricingCostBuy(k: string)
    requires k == "pricing, cost, buy"
    ensures KeywordPieces(k) == ["pricing", "cost", "buy"]
  {
    SplitPricingCostBuy(k);
    var parts := Split(k, ',');
    PieceOf("pricing");
    PieceAfterBlank("cost");
    PieceAfterBlank("buy");
    assert parts[0] == "pricing" && parts[1] == [' '] + "cost" && parts[2] == [' '] + "buy";
    var p := KeywordPieces(k);
    assert |p| == 3;
    assert p[0] == "pricing" && p[1] == "cost" && p[2] == "buy";
    Seq3(p, "pricing", "cost", "buy");
  }

  lemma NoneInHelloWorld(t: string)
    requires t == "hello world"
    ensures !Contains(t, "pricing") && !Contains(t, "cost") && !Contains(t, "buy")
  {
    ContainsFirstChar(t, "pricing");
    ContainsFirstChar(t, "cost");
    ContainsFirstChar(t, "buy");
  }

  lemma LowerHelloWorld(q: string)
    requires q == "Hello world"
    ensures Lower(q) == "hello world"
  {
    LowerNoCapitals("ello world");
    assert q == "H" + "ello world";
    LowerAppend("H", "ello world");
  }

  /** The second keyword test: no piece occurs in the query, so the score is exactly 0. */
  lemma KeywordNoMatchTest(q: string, k: string)
    requires q == "Hello world" && k == "pricing, cost, buy"
    ensures KeywordScore(q, k) == 0.0
  {
    var t := Lower(q);
    var pieces := KeywordPieces(k);
    PiecesPricingCostBuy(k);
    LowerHelloWorld(q);
    NoneInHelloWorld(t);
    NoneOfThree(t, pieces);
    KeywordScoreCases(q, k);
  }

  lemma NoneOfThree(t: string, pieces: seq<string>)
    requires pieces == ["pricing", "cost", "buy"]
    requires !Contains(t, "pricing") && !Contains(t, "cost") && !Contains(t, "buy")
    ensures forall i :: 0 <= i < |pieces| ==> !Contains(t, pieces[i])
  {
  }

  lemma SplitHowWork(k: string)
    requires k == "how, work"
    ensures Split(k, ',') == ["how", " work"]
  {
    assert Join(["how", " work"], ',') == k;
    SplitJoin(["how", " work"], ',');
  }

  lemma PiecesHowWork(k: string)
    requires k == "how, work"
    ensures KeywordPieces(k) == ["how", "work"]
  {
    SplitHowWork(k);
    var parts := Split(k, ',');
    PieceOf("how");
    PieceAfterBlank("work");
    assert parts[0] == "how" && parts[1] == [' '] + "work";
    var p := KeywordPieces(k);
    assert |p| == 2 && p[0] == "how" && p[1] == "work";
    assert p == ["how", "work"];
  }

  lemma HowAndWorkIn(x: string)
    requires x == "How does it work?"
    ensures Contains(Lower(x), "how") && Contains(Lower(x), "work")
  {
    LowerItWorks(x);
    var t := Lower(x);
    assert t == "how does it work?";
    ContainsAt(t, "how", 0);
    ContainsAt(t, "work", 12);
  }

  /** Both keywords "how" and "work" occur in "How does it work?", so the keyword score is 1. */
  lemma KeywordHowWork(q: string, k: string)
    requires q == "How does it work?" && k == "how, work"
    ensures KeywordScore(q, k) == 1.0
  {
    PiecesHowWork(k);
    HowAndWorkIn(q);
    KeywordScoreCases(q, k);
  }

  lemma CombinedOfParts(q: string, faq: Faq)
    requires KeywordScore(q, faq.keywords.GetOr("")) == 1.0 && TextSimilarity(q, faq.question) == 0.75
    ensures CombinedScore(q, faq) == 0.9
  {
  }

  /** A single FAQ that reaches the threshold is the match, with its own score. */
  lemma DecideSingle(q: string, faq: Faq)
    requires CombinedScore(q, faq) >= MinScoreThreshold
    ensures Decide(q, [faq]) == Some((faq, CombinedScore(q, faq)))
  {
    var c := CombinedScore(q, faq);
    assert Scores(q, [faq]) == [c];
    assert [c][..0] == [];
  }

  /**
   * The matching example: "How does it work?" against the FAQ question
   * "How does this work?" with keywords "how, work" scores
   * 0.6 * 1 + 0.4 * 0.75 = 0.9, at least the threshold, so that FAQ is the
   * match.
   */
  lemma MatchExample(q: string, faq: Faq)
    requires q == "How does it work?"
    requires faq.question == "How does this work?" && faq.keywords == Some("how, work")
    ensures CombinedScore(q, faq) == 0.9
    ensures Decide(q, [faq]) == Some((faq, 0.9))
  {
    KeywordHowWork(q, "how, work");
    SimilarityTest(q, faq.question);
    CombinedOfParts(q, faq);
    DecideSingle(q, faq);
  }
}
