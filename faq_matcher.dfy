/**
 * The FAQ matcher: a keyword score and a token-set similarity between a query
 * and one FAQ, their weighted sum, and the arg-max selection over a product's
 * FAQs with a fixed acceptance threshold.  Scores are exact rationals.
 */
module FaqMatcher {
  import opened Wrappers
  import opened Text
  import opened Models
  import opened Database

  /** `FAQMatcher.min_score_threshold`. */
  const MinScoreThreshold: real := 0.3

  /** `[k.strip().lower() for k in faq_keywords.split(",")]`. */
  function KeywordPieces(keywords: string): (r: seq<string>)
    ensures |r| == |Split(keywords, ',')| && |r| >= 1
    ensures forall i :: 0 <= i < |r| ==> r[i] == Lower(Strip(Split(keywords, ',')[i]))
  {
    var parts := Split(keywords, ',');
    seq(|parts|, i requires 0 <= i < |parts| => Lower(Strip(parts[i])))
  }

  /** How many of `pieces` occur in `text`. */
  function CountIn(pieces: seq<string>, text: string): (n: nat)
    ensures n <= |pieces|
    ensures n == |pieces| <==> forall i :: 0 <= i < |pieces| ==> Contains(text, pieces[i])
    ensures n == 0 <==> forall i :: 0 <= i < |pieces| ==> !Contains(text, pieces[i])
  {
    if pieces == [] then 0
    else
      var last := pieces[|pieces| - 1];
      var m := CountIn(pieces[..|pieces| - 1], text);
      assert forall i :: 0 <= i < |pieces| - 1 ==> pieces[..|pieces| - 1][i] == pieces[i];
      m + (if Contains(text, last) then 1 else 0)
  }

  /** A count over a positive total, as a real fraction. */
  lemma Fraction(n: nat, d: nat)
    requires 1 <= d && n <= d
    ensures 0.0 <= n as real / d as real <= 1.0
    ensures n as real / d as real == 1.0 <==> n == d
    ensures n as real / d as real == 0.0 <==> n == 0
  {
    var f := n as real / d as real;
    assert f * d as real == n as real;
  }

  /** `_calculate_keyword_score`: the fraction of comma pieces found in the lower-cased query. */
  function KeywordScore(query: string, keywords: string): (r: real)
    ensures 0.0 <= r <= 1.0
  {
    if keywords == "" then 0.0
    else
      var pieces := KeywordPieces(keywords);
      var n := CountIn(pieces, Lower(query));
      Fraction(n, |pieces|);
      n as real / |pieces| as real
  }

  /**
   * An empty keyword string scores 0; otherwise the score is the share of
   * pieces found, it is 1 exactly when every piece occurs in the lower-cased
   * query and 0 exactly when none does.
   */
  lemma KeywordScoreCases(query: string, keywords: string)
    ensures keywords == "" ==> KeywordScore(query, keywords) == 0.0
    ensures keywords != "" ==>
      (KeywordScore(query, keywords) == 1.0 <==>
        forall i :: 0 <= i < |KeywordPieces(keywords)| ==> Contains(Lower(query), KeywordPieces(keywords)[i]))
    ensures keywords != "" ==>
      (KeywordScore(query, keywords) == 0.0 <==>
        forall i :: 0 <= i < |KeywordPieces(keywords)| ==> !Contains(Lower(query), KeywordPieces(keywords)[i]))
  {
    if keywords != "" {
      var pieces := KeywordPieces(keywords);
      Fraction(CountIn(pieces, Lower(query)), |pieces|);
    }
  }

  lemma SubsetCard<T>(a: set<T>, b: set<T>)
    requires a <= b
    ensures |a| <= |b|
  {
    assert b == a + (b - a);
  }

  lemma SameCard<T>(a: set<T>, b: set<T>)
    requires a <= b && |a| >= |b|
    ensures a == b
  {
    if a != b {
      assert !(b <= a);
      var x :| x in b && x !in a;
      SubsetCard(a, b - {x});
      assert false;
    }
  }

  function Max(a: nat, b: nat): nat {
    if a >= b then a else b
  }

  /** The similarity of two token sets: shared tokens over the larger set, 0 when either is empty. */
  function SetSimilarity(q: set<string>, w: set<string>): (r: real)
    ensures 0.0 <= r <= 1.0
  {
    if |q| == 0 || |w| == 0 then 0.0
    else
      SubsetCard(q * w, q);
      Fraction(|q * w|, Max(|q|, |w|));
      |q * w| as real / Max(|q|, |w|) as real
  }

  /** `_calculate_text_similarity`: the similarity of the lower-cased token sets. */
  function TextSimilarity(query: string, question: string): (r: real)
    ensures 0.0 <= r <= 1.0
  {
    SetSimilarity(WordSet(Lower(query)), WordSet(Lower(question)))
  }

  /**
   * Two token sets are 0-similar exactly when they share no token (in
   * particular when either is empty) and 1-similar exactly when they are the
   * same non-empty set.
   */
  lemma SetSimilarityCases(q: set<string>, w: set<string>)
    ensures SetSimilarity(q, w) == 0.0 <==> q * w == {}
    ensures SetSimilarity(q, w) == 1.0 <==> q != {} && q == w
  {
    if |q| != 0 && |w| != 0 {
      SubsetCard(q * w, q);
      SubsetCard(q * w, w);
      Fraction(|q * w|, Max(|q|, |w|));
      if |q * w| == Max(|q|, |w|) {
        SameCard(q * w, q);
        SameCard(q * w, w);
      }
      if q == w {
        assert q * w == q;
      }
      if q * w == {} {
        assert |q * w| == 0;
      }
    } else {
      if q == {} { assert q * w == {}; }
      if w == {} { assert q * w == {}; }
    }
  }

  /** The set similarity does not depend on the order of its arguments. */
  lemma SetSimilaritySymmetric(q: set<string>, w: set<string>)
    ensures SetSimilarity(q, w) == SetSimilarity(w, q)
  {
    assert q * w == w * q;
  }

  /**
   * A query and a question are 0-similar exactly when their lower-cased
   * texts share no token, and 1-similar exactly when they have the same
   * non-empty token set.
   */
  lemma SimilarityCases(query: string, question: string)
    ensures TextSimilarity(query, question) == 0.0 <==>
      WordSet(Lower(query)) * WordSet(Lower(question)) == {}
    ensures TextSimilarity(query, question) == 1.0 <==>
      WordSet(Lower(query)) != {} && WordSet(Lower(query)) == WordSet(Lower(question))
  {
    SetSimilarityCases(WordSet(Lower(query)), WordSet(Lower(question)));
  }

  /** The similarity does not depend on which text is the query. */
  lemma SimilaritySymmetric(a: string, b: string)
    ensures TextSimilarity(a, b) == TextSimilarity(b, a)
  {
    SetSimilaritySymmetric(WordSet(Lower(a)), WordSet(Lower(b)));
  }

  /** The combined score of `find_matching_faq`: `0.6 * keyword + 0.4 * similarity`. */
  function CombinedScore(query: string, faq: Faq): (r: real)
    ensures 0.0 <= r <= 1.0
  {
    KeywordScore(query, faq.keywords.GetOr("")) * 0.6 + TextSimilarity(query, faq.question) * 0.4
  }

  /** The combined score of each FAQ, in order. */
  function Scores(query: string, faqs: seq<Faq>): (r: seq<real>)
    ensures |r| == |faqs|
    ensures forall i :: 0 <= i < |faqs| ==> r[i] == CombinedScore(query, faqs[i])
  {
    seq(|faqs|, i requires 0 <= i < |faqs| => CombinedScore(query, faqs[i]))
  }

  /**
   * The state of the selection loop after the given scores: the index of the
   * current best FAQ (if any) and the best score, starting from 0.0 and moving
   * only on a strictly greater score.
   */
  function Best(scores: seq<real>): (b: (Option<nat>, real))
    ensures b.1 >= 0.0
    ensures b.0.None? ==> b.1 == 0.0
    ensures b.0.Some? ==> b.0.value < |scores| && scores[b.0.value] == b.1 && b.1 > 0.0
    ensures forall i :: 0 <= i < |scores| ==> scores[i] <= b.1
    ensures b.0.Some? ==> forall i :: 0 <= i < b.0.value ==> scores[i] < b.1
  {
    if scores == [] then (None, 0.0)
    else
      var init := scores[..|scores| - 1];
      var prev := Best(init);
      var c := scores[|scores| - 1];
      assert forall i :: 0 <= i < |scores| - 1 ==> init[i] == scores[i];
      if c > prev.1 then (Some(|scores| - 1), c) else prev
  }

  /** What `find_matching_faq` returns: the best FAQ and its score, if the score reaches the threshold. */
  function Decide(query: string, faqs: seq<Faq>): (r: Option<(Faq, real)>)
  {
    var b := Best(Scores(query, faqs));
    if b.1 >= MinScoreThreshold then Some((faqs[b.0.value], b.1)) else None
  }

  /** The selection reaches a positive threshold exactly when some score does. */
  lemma BestReaches(scores: seq<real>, t: real)
    requires t > 0.0
    ensures Best(scores).1 >= t <==> exists i :: 0 <= i < |scores| && scores[i] >= t
  {
    var b := Best(scores);
    if b.1 >= t {
      assert scores[b.0.value] >= t;
    }
  }

  /** No match is returned exactly when every FAQ scores below the threshold. */
  lemma DecideNone(query: string, faqs: seq<Faq>)
    ensures Decide(query, faqs).None? <==>
      forall i :: 0 <= i < |faqs| ==> CombinedScore(query, faqs[i]) < MinScoreThreshold
  {
    var scores := Scores(query, faqs);
    BestReaches(scores, MinScoreThreshold);
  }

  /** `i` holds a maximum of `scores`, and no earlier index does. */
  predicate FirstMax(scores: seq<real>, i: int) {
    && 0 <= i < |scores|
    && (forall j :: 0 <= j < |scores| ==> scores[j] <= scores[i])
    && (forall j :: 0 <= j < i ==> scores[j] < scores[i])
  }

  /**
   * A returned match is an FAQ with the maximum combined score, the first in
   * list order among those with that score, and the returned score is its
   * combined score, at least the threshold.
   */
  lemma DecideSome(query: string, faqs: seq<Faq>)
    requires Decide(query, faqs).Some?
    ensures Decide(query, faqs).value.1 >= MinScoreThreshold
    ensures exists i ::
      && FirstMax(Scores(query, faqs), i)
      && Decide(query, faqs).value == (faqs[i], CombinedScore(query, faqs[i]))
  {
    var scores := Scores(query, faqs);
    var k := Best(scores).0.value;
    assert FirstMax(scores, k);
  }

  /**
   * `find_matching_faq(product_id, query)`: `faqs` is the listing
   * `get_faqs` gives of the product's rows in `store`.  A returned FAQ is one
   * of that product's rows.
   */
  method FindMatchingFaq(store: Store, productId: int, query: string, faqs: seq<Faq>)
    returns (r: Option<(Faq, real)>)
    requires store.Valid() && ListsFaqsOf(faqs, store.faqs, productId)
    ensures r == Decide(query, faqs)
    ensures r.Some? ==> r.value.0 in store.GetFaqs(productId)
  {
    ghost var scores := Scores(query, faqs);
    var bestMatch: Option<nat> := None;
    var bestScore := 0.0;
    var i := 0;
    while i < |faqs|
      invariant 0 <= i <= |faqs|
      invariant (bestMatch, bestScore) == Best(scores[..i])
    {
      assert scores[..i + 1][..i] == scores[..i];
      var combined := CombinedScore(query, faqs[i]);
      if combined > bestScore {
        bestScore := combined;
        bestMatch := Some(i);
      }
      i := i + 1;
    }
    assert scores[..i] == scores;
    if bestScore >= MinScoreThreshold {
      assert faqs[bestMatch.value] in faqs;
      r := Some((faqs[bestMatch.value], bestScore));
    } else {
      r := None;
    }
  }

  /** Every query finds every keyword piece of `","`: empty pieces match. */
  lemma EmptyPiecesMatch(query: string)
    ensures KeywordScore(query, ",") == 1.0
  {
    assert Join(["", ""], ',') == ",";
    SplitJoin(["", ""], ',');
    var pieces := KeywordPieces(",");
    assert Strip("") == "" && Lower("") == "";
    assert |pieces| == 2 && pieces[0] == "" && pieces[1] == "";
    ContainsEmpty(Lower(query));
    KeywordScoreCases(query, ",");
  }
}
