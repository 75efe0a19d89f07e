/**
 * Lead discovery: the relevance score of a search hit, the list of search
 * queries, the mapping of raw search results to scored hits, the
 * de-duplication by user name, the stable descending sort and the cut to
 * the best 20, and the engagement dispatch.  Searches, logins and the text
 * generator are oracles whose outcomes are parameters.
 */
module Discovery {
  import opened Wrappers
  import opened Text
  import opened Sequences
  import opened Platforms

  /** `LeadDiscovery.product_keywords`. */
  const ProductKeywords: seq<string> := [
    "link in bio", "linktree", "link tree", "bio link",
    "link page", "link bio", "biolink", "linktree alternative",
    "link in bio tool", "creator tools", "social media links",
    "personal brand", "influencer", "content creator"]

  /** The number of searches `search_leads` makes, and the `limit` of each. */
  const MaxSearches: nat := 5
  const SearchLimit: int := 10
  /** The number of leads `search_leads` returns at most. */
  const MaxLeads: nat := 20

  // ------------------------------------------------------------ scoring

  /** How many of `keywords` occur in `textLower`. */
  function KeywordHits(textLower: string, keywords: seq<string>): (n: nat)
    ensures n <= |keywords|
  {
    if keywords == [] then 0
    else
      var last := keywords[|keywords| - 1];
      KeywordHits(textLower, keywords[..|keywords| - 1]) + (if Contains(textLower, last) then 1 else 0)
  }

  /** The indices of the keywords that occur in `textLower`. */
  function HitIndices(textLower: string, keywords: seq<string>): set<int> {
    set k | 0 <= k < |keywords| && Contains(textLower, keywords[k])
  }

  /** `KeywordHits` counts exactly the keywords that occur. */
  lemma {:induction false} KeywordHitsCount(textLower: string, keywords: seq<string>)
    ensures KeywordHits(textLower, keywords) == |HitIndices(textLower, keywords)|
    decreases |keywords|
  {
    if keywords != [] {
      var n := |keywords| - 1;
      var init := keywords[..n];
      KeywordHitsCount(textLower, init);
      var before := HitIndices(textLower, init);
      assert n !in before;
      if Contains(textLower, keywords[n]) {
        assert HitIndices(textLower, keywords) == before + {n};
      } else {
        assert HitIndices(textLower, keywords) == before;
      }
    }
  }

  /** The score before the cap: 0.2 per product keyword, 0.3 when the query occurs, 0.1 more when it occurs twice. */
  function RawRelevance(textLower: string, queryLower: string): real {
    0.2 * KeywordHits(textLower, ProductKeywords) as real
    + (if Contains(textLower, queryLower) then 0.3 else 0.0)
    + (if CountOcc(textLower, queryLower) > 1 then 0.1 else 0.0)
  }

  /** `_calculate_relevance_score`: 0 for an empty text, else the raw score on lower-cased text and query, capped at 1. */
  function Relevance(text: string, query: string): real {
    if text == "" then 0.0
    else
      var raw := RawRelevance(Lower(text), Lower(query));
      if raw < 1.0 then raw else 1.0
  }

  /**
   * The score lies in [0, 1]; it is 0 for an empty text; below the cap it
   * is the raw sum; a query that occurs twice earns both bonuses.
   */
  lemma RelevanceBounds(text: string, query: string)
    ensures 0.0 <= Relevance(text, query) <= 1.0
    ensures text == "" ==> Relevance(text, query) == 0.0
    ensures text != "" && RawRelevance(Lower(text), Lower(query)) <= 1.0 ==>
      Relevance(text, query) == RawRelevance(Lower(text), Lower(query))
    ensures text != "" && CountOcc(Lower(text), Lower(query)) > 1 ==> Relevance(text, query) >= 0.4
  {
    CountOccPositive(Lower(text), Lower(query));
  }

  /** An empty query occurs in every text, more than once in a non-empty one, so it earns both bonuses. */
  lemma EmptyQueryBonus(text: string)
    requires text != ""
    ensures RawRelevance(Lower(text), "") == 0.2 * KeywordHits(Lower(text), ProductKeywords) as real + 0.4
  {
    ContainsEmpty(Lower(text));
  }

  /** `_calculate_relevance_score`, with its accumulating loop over the product keywords. */
  method RelevanceScore(text: string, query: string) returns (score: real)
    ensures score == Relevance(text, query)
  {
    if text == "" {
      return 0.0;
    }
    var textLower := Lower(text);
    var queryLower := Lower(query);
    score := 0.0;
    for i := 0 to |ProductKeywords|
      invariant score == 0.2 * KeywordHits(textLower, ProductKeywords[..i]) as real
    {
      assert ProductKeywords[..i + 1][..i] == ProductKeywords[..i];
      if Contains(textLower, ProductKeywords[i]) {
        score := score + 0.2;
      }
    }
    assert ProductKeywords[..|ProductKeywords|] == ProductKeywords;
    if Contains(textLower, queryLower) {
      score := score + 0.3;
    }
    var count := CountOcc(textLower, queryLower);
    if count > 1 {
      score := score + 0.1;
    }
    if score > 1.0 {
      score := 1.0;
    }
  }

  // ------------------------------------------------------------ queries

  /** The search list of `search_leads`: the query when non-empty, then the first five product keywords. */
  function SearchQueries(query: string): (r: seq<string>)
    ensures |r| == (if query != "" then 6 else 5)
  {
    (if query != "" then [query] else []) + ProductKeywords[..5]
  }

  /** The queries actually searched: the first five of the list. */
  function Searched(query: string): (r: seq<string>)
    ensures |r| == MaxSearches
  {
    SearchQueries(query)[..MaxSearches]
  }

  /** With a query, it and the first four keywords are searched; without one, the first five keywords. */
  lemma SearchedQueries(query: string)
    ensures query != "" ==> Searched(query) == [query] + ProductKeywords[..4]
    ensures query == "" ==> Searched(query) == ProductKeywords[..5]
  {
  }

  /** The loop of `search_leads` that builds the search list. */
  method BuildSearchQueries(query: string) returns (r: seq<string>)
    ensures r == SearchQueries(query)
  {
    r := if query != "" then [query] else [];
    ghost var start := r;
    for i := 0 to 5
      invariant r == start + ProductKeywords[..i]
    {
      assert ProductKeywords[..i + 1] == ProductKeywords[..i] + [ProductKeywords[i]];
      r := r + [ProductKeywords[i]];
    }
  }

  // --------------------------------------------------------------- hits

  /** A scored search hit, the dictionary `search_leads_on_platform` builds. */
  datatype Hit = Hit(platform: string, username: string, text: string, relevanceScore: real)

  /** The hit built from one raw result. */
  function HitOf(platform: string, query: string, result: Fields): (h: Hit)
    ensures h.username == Get(result, "username", "") && h.text == Get(result, "text", "")
    ensures h.platform == platform
    ensures h.relevanceScore == Relevance(h.text, query)
  {
    var text := Get(result, "text", "");
    Hit(platform, Get(result, "username", ""), text, Relevance(text, query))
  }

  /** The raw results mapped to hits, in order. */
  function HitsOf(platform: string, query: string, results: seq<Fields>): (r: seq<Hit>)
    ensures |r| == |results|
    ensures forall i :: 0 <= i < |r| ==> r[i] == HitOf(platform, query, results[i])
  {
    if results == [] then []
    else HitsOf(platform, query, results[..|results| - 1]) + [HitOf(platform, query, results[|results| - 1])]
  }

  /** The results a search yields, or `None` when it stops at an exception. */
  function SearchOutcome(
    classes: map<string, AdapterClass>, platform: string, username: string, password: string,
    login: Call<bool>, search: Call<seq<Fields>>): Option<seq<Fields>>
  {
    match Lookup(classes, platform)
    case None => None
    case Some(c) =>
      if username != "" && password != "" && Capability(c, true, login).Raised? then None
      else match Capability(c, [], search)
        case Raised(_) => None
        case Returned(results) => Some(results)
  }

  /**
   * `search_leads_on_platform`: logs in only with both credentials, searches,
   * and scores each result; any exception gives the empty list.
   */
  method SearchLeadsOnPlatform(
    registry: PlatformRegistry, platform: string, query: string, username: string, password: string,
    limit: int, login: Call<bool>, search: Call<seq<Fields>>) returns (leads: seq<Hit>)
    ensures leads == match SearchOutcome(registry.classes, platform, username, password, login, search)
      case None => []
      case Some(results) => HitsOf(platform, query, results)
  {
    var adapter := registry.GetAdapter(platform, username, password);
    if adapter.Raised? {
      return [];
    }
    var c := adapter.value.adapterClass;
    if username != "" && password != "" && Capability(c, true, login).Raised? {
      return [];
    }
    var outcome := Capability(c, [], search);
    if outcome.Raised? {
      return [];
    }
    var results := outcome.value;
    leads := [];
    for i := 0 to |results|
      invariant leads == HitsOf(platform, query, results[..i])
    {
      assert results[..i + 1][..i] == results[..i];
      var score := RelevanceScore(Get(results[i], "text", ""), query);
      leads := leads + [Hit(platform, Get(results[i], "username", ""), Get(results[i], "text", ""), score)];
    }
    assert results[..|results|] == results;
  }

  // -------------------------------------------------------------- dedup

  function Usernames(s: seq<Hit>): set<string> {
    set h | h in s :: h.username
  }

  /** The de-duplication loop: keep a hit when its user name is non-empty and not seen before. */
  function Dedup(s: seq<Hit>): seq<Hit> {
    if s == [] then []
    else
      var kept := Dedup(s[..|s| - 1]);
      var last := s[|s| - 1];
      if last.username != "" && last.username !in Usernames(kept) then kept + [last] else kept
  }

  /** The user names of the hits, in order (the values `seen` collects). */
  function NamesOf(s: seq<Hit>): seq<string> {
    seq(|s|, i requires 0 <= i < |s| => s[i].username)
  }

  /** The kept hits come from the input and have non-empty user names. */
  lemma {:induction false} DedupFromInput(s: seq<Hit>)
    ensures forall h :: h in Dedup(s) ==> h in s && h.username != ""
    decreases |s|
  {
    if s != [] {
      DedupFromInput(s[..|s| - 1]);
      assert s == s[..|s| - 1] + [s[|s| - 1]];
    }
  }

  /** Every non-empty user name of the input is kept, and no other. */
  lemma {:induction false} DedupNames(s: seq<Hit>)
    ensures Usernames(Dedup(s)) == Usernames(s) - {""}
    decreases |s|
  {
    if s != [] {
      var init := s[..|s| - 1];
      var last := s[|s| - 1];
      DedupNames(init);
      assert s == init + [last];
      assert Usernames(s) == Usernames(init) + {last.username};
      var kept := Dedup(init);
      if last.username != "" && last.username !in Usernames(kept) {
        assert Usernames(kept + [last]) == Usernames(kept) + {last.username};
      }
    }
  }

  /** No user name is kept twice. */
  lemma {:induction false} DedupDistinct(s: seq<Hit>)
    ensures Distinct(NamesOf(Dedup(s)))
    decreases |s|
  {
    if s != [] {
      var init := s[..|s| - 1];
      var last := s[|s| - 1];
      DedupDistinct(init);
      var kept := Dedup(init);
      if last.username != "" && last.username !in Usernames(kept) {
        assert NamesOf(kept + [last]) == NamesOf(kept) + [last.username];
        forall k | 0 <= k < |kept| ensures NamesOf(kept)[k] != last.username {
          assert kept[k] in kept;
        }
        DistinctAppend(NamesOf(kept), last.username);
      }
    }
  }

  /** `h` is the first hit of `s` with its user name. */
  predicate FirstWithName(s: seq<Hit>, h: Hit) {
    exists i :: 0 <= i < |s| && s[i] == h && forall j :: 0 <= j < i ==> s[j].username != h.username
  }

  /** Of the hits sharing a user name, the first is the one kept. */
  lemma {:induction false} DedupFirst(s: seq<Hit>)
    ensures forall h :: h in Dedup(s) ==> FirstWithName(s, h)
    decreases |s|
  {
    if s != [] {
      var init := s[..|s| - 1];
      var last := s[|s| - 1];
      DedupFirst(init);
      var kept := Dedup(init);
      forall h | h in Dedup(s) ensures FirstWithName(s, h) {
        if h in kept {
          var i :| 0 <= i < |init| && init[i] == h && forall j :: 0 <= j < i ==> init[j].username != h.username;
          assert s[i] == h;
          assert forall j :: 0 <= j < i ==> s[j] == init[j];
        } else {
          assert Dedup(s) == kept + [last];
          assert h == last && last.username !in Usernames(kept);
          DedupNames(init);
          forall j | 0 <= j < |s| - 1 ensures s[j].username != h.username {
            assert s[j] == init[j] && init[j] in init;
          }
          assert s[|s| - 1] == h;
        }
      }
    }
  }

  /** The `seen`/`unique_leads` loop of `search_leads`. */
  method DedupLeads(all: seq<Hit>) returns (unique: seq<Hit>)
    ensures unique == Dedup(all)
  {
    var seen: set<string> := {};
    unique := [];
    for i := 0 to |all|
      invariant unique == Dedup(all[..i])
      invariant seen == Usernames(unique)
    {
      assert all[..i + 1][..i] == all[..i];
      var lead := all[i];
      if lead.username !in seen && lead.username != "" {
        seen := seen + {lead.username};
        unique := unique + [lead];
      }
    }
    assert all[..|all|] == all;
  }

  // --------------------------------------------------------------- sort

  /** Non-increasing relevance. */
  predicate SortedDesc(s: seq<Hit>) {
    forall i, j :: 0 <= i < j < |s| ==> s[i].relevanceScore >= s[j].relevanceScore
  }

  /** Insert `h` before the first hit scoring no more than it: the step of a stable descending sort. */
  function Insert(h: Hit, s: seq<Hit>): seq<Hit> {
    if s == [] || h.relevanceScore >= s[0].relevanceScore then [h] + s
    else [s[0]] + Insert(h, s[1..])
  }

  /** `list.sort(key=relevance_score, reverse=True)`: stable and descending. */
  function SortDesc(s: seq<Hit>): seq<Hit> {
    if s == [] then [] else Insert(s[0], SortDesc(s[1..]))
  }

  /** The hits of `s` scoring exactly `v`, in order. */
  function WithScore(s: seq<Hit>, v: real): seq<Hit> {
    if s == [] then []
    else (if s[0].relevanceScore == v then [s[0]] else []) + WithScore(s[1..], v)
  }

  /** Inserting adds exactly the one hit. */
  lemma {:induction false} InsertPermutes(h: Hit, s: seq<Hit>)
    ensures multiset(Insert(h, s)) == multiset([h] + s)
    decreases |s|
  {
    if !(s == [] || h.relevanceScore >= s[0].relevanceScore) {
      InsertPermutes(h, s[1..]);
      assert s == [s[0]] + s[1..];
    }
  }

  lemma SortedCons(x: Hit, r: seq<Hit>)
    requires SortedDesc(r)
    requires forall k :: 0 <= k < |r| ==> r[k].relevanceScore <= x.relevanceScore
    ensures SortedDesc([x] + r)
  {
    forall i, j | 0 <= i < j < |[x] + r|
      ensures ([x] + r)[i].relevanceScore >= ([x] + r)[j].relevanceScore
    {
      assert ([x] + r)[j] == r[j - 1];
      if i > 0 {
        assert ([x] + r)[i] == r[i - 1];
      }
    }
  }

  lemma SortedTail(s: seq<Hit>)
    requires SortedDesc(s) && s != []
    ensures SortedDesc(s[1..])
    ensures forall k :: 0 <= k < |s| - 1 ==> s[1..][k].relevanceScore <= s[0].relevanceScore
  {
  }

  /** Inserting into a descending sequence keeps it descending. */
  lemma {:induction false} InsertSorted(h: Hit, s: seq<Hit>)
    requires SortedDesc(s)
    ensures SortedDesc(Insert(h, s))
    decreases |s|
  {
    if s == [] || h.relevanceScore >= s[0].relevanceScore {
      SortedCons(h, s);
    } else {
      var t := s[1..];
      SortedTail(s);
      InsertSorted(h, t);
      InsertPermutes(h, t);
      var r := Insert(h, t);
      forall k | 0 <= k < |r| ensures r[k].relevanceScore <= s[0].relevanceScore {
        assert r[k] in multiset(r);
        if r[k] != h {
          assert r[k] in t;
          var m :| 0 <= m < |t| && t[m] == r[k];
        }
      }
      SortedCons(s[0], r);
    }
  }

  lemma WithScoreCons(h: Hit, s: seq<Hit>, v: real)
    ensures WithScore([h] + s, v) == (if h.relevanceScore == v then [h] else []) + WithScore(s, v)
  {
    assert ([h] + s)[1..] == s;
  }

  /** Inserting keeps the order among the hits of any one score. */
  lemma {:induction false} InsertStable(h: Hit, s: seq<Hit>, v: real)
    ensures WithScore(Insert(h, s), v) == WithScore([h] + s, v)
    decreases |s|
  {
    if !(s == [] || h.relevanceScore >= s[0].relevanceScore) {
      var t := s[1..];
      InsertStable(h, t, v);
      assert s == [s[0]] + t;
      WithScoreCons(s[0], Insert(h, t), v);
      WithScoreCons(h, t, v);
      WithScoreCons(s[0], t, v);
      WithScoreCons(h, s, v);
    }
  }

  /**
   * The sort orders by non-increasing score, keeps every hit exactly as
   * often as before, and is stable: the hits of any one score keep their
   * relative order.
   */
  lemma {:induction false} SortDescSpec(s: seq<Hit>, v: real)
    ensures SortedDesc(SortDesc(s))
    ensures multiset(SortDesc(s)) == multiset(s)
    ensures WithScore(SortDesc(s), v) == WithScore(s, v)
    decreases |s|
  {
    if s != [] {
      SortDescSpec(s[1..], v);
      InsertSorted(s[0], SortDesc(s[1..]));
      InsertPermutes(s[0], SortDesc(s[1..]));
      InsertStable(s[0], SortDesc(s[1..]), v);
      assert s == [s[0]] + s[1..];
      WithScoreCons(s[0], SortDesc(s[1..]), v);
      WithScoreCons(s[0], s[1..], v);
    }
  }

  // ---------------------------------------------------------- the search

  /** `search_leads` without the final cut: the de-duplicated hits, sorted. */
  function Ranked(all: seq<Hit>): seq<Hit> {
    SortDesc(Dedup(all))
  }

  /** The first `MaxLeads` hits of a ranking. */
  function Top(ranked: seq<Hit>): (r: seq<Hit>)
    ensures |r| <= MaxLeads
  {
    if |ranked| <= MaxLeads then ranked else ranked[..MaxLeads]
  }

  /** The ranking is descending, a reordering of the de-duplicated hits, with distinct user names. */
  lemma RankedSpec(all: seq<Hit>)
    ensures SortedDesc(Ranked(all))
    ensures multiset(Ranked(all)) == multiset(Dedup(all))
    ensures Distinct(NamesOf(Ranked(all)))
  {
    DedupDistinct(all);
    SortDescSpec(Dedup(all), 0.0);
    NamesOfDistinctPermutation(Dedup(all), Ranked(all));
  }

  /** The first hits of a descending ranking with distinct user names. */
  lemma TopSpec(r: seq<Hit>)
    requires SortedDesc(r) && Distinct(NamesOf(r))
    ensures SortedDesc(Top(r)) && Distinct(NamesOf(Top(r)))
    ensures forall h :: h in Top(r) ==> h in r
    ensures forall h, g :: h in r && g in Top(r) && h.relevanceScore > g.relevanceScore ==> h in Top(r)
  {
    assert NamesOf(Top(r)) == NamesOf(r)[..|Top(r)|];
    forall h, g | h in r && g in Top(r) && h.relevanceScore > g.relevanceScore
      ensures h in Top(r)
    {
      TopKeepsBetter(r, h, g);
    }
  }

  /**
   * The result of `search_leads` has at most 20 hits with distinct
   * non-empty user names, in non-increasing score; each is the first
   * collected hit with its user name; and a de-duplicated hit that
   * outscores a returned one is itself returned.
   */
  lemma SearchResultSpec(all: seq<Hit>)
    ensures |Top(Ranked(all))| <= MaxLeads
    ensures SortedDesc(Top(Ranked(all)))
    ensures forall h :: h in Top(Ranked(all)) ==> h in Dedup(all) && h.username != "" && FirstWithName(all, h)
    ensures Distinct(NamesOf(Top(Ranked(all))))
    ensures forall h, g :: h in Dedup(all) && g in Top(Ranked(all)) && h.relevanceScore > g.relevanceScore ==>
      h in Top(Ranked(all))
  {
    var ranked := Ranked(all);
    RankedSpec(all);
    TopSpec(ranked);
    DedupFromInput(all);
    DedupFirst(all);
    forall h | h in Top(ranked) ensures h in Dedup(all) {
      assert h in multiset(ranked);
    }
    forall h | h in Dedup(all) ensures h in ranked {
      assert h in multiset(Dedup(all));
    }
  }

  /** In a descending sequence, a hit that outscores one of the first ones is among them. */
  lemma TopKeepsBetter(r: seq<Hit>, h: Hit, g: Hit)
    requires SortedDesc(r) && h in r && g in Top(r) && h.relevanceScore > g.relevanceScore
    ensures h in Top(r)
  {
    var a :| 0 <= a < |r| && r[a] == h;
    var b :| 0 <= b < |Top(r)| && Top(r)[b] == g;
    assert r[b] == g;
    assert a < b;
    assert Top(r)[a] == h;
  }

  /** Reordering a sequence with distinct user names keeps them distinct. */
  lemma NamesOfDistinctPermutation(s: seq<Hit>, t: seq<Hit>)
    requires Distinct(NamesOf(s)) && multiset(s) == multiset(t)
    ensures Distinct(NamesOf(t))
  {
    forall i, j | 0 <= i < j < |t| ensures NamesOf(t)[i] != NamesOf(t)[j] {
      assert t[i] in multiset(s) && t[j] in multiset(s);
      var a :| 0 <= a < |s| && s[a] == t[i];
      OccursOnce(s, a);
      CountPositions(t, i, j);
      SameName(s, t[i], t[j]);
    }
  }

  /** Two places of `t` holding the same hit count it twice. */
  lemma CountPositions(t: seq<Hit>, i: int, j: int)
    requires 0 <= i < j < |t|
    ensures multiset(t)[t[i]] >= (if t[i] == t[j] then 2 else 1)
  {
    assert t == t[..i] + [t[i]] + t[i + 1..j] + [t[j]] + t[j + 1..];
  }

  /** With distinct user names, a user name identifies its hit. */
  lemma SameName(s: seq<Hit>, x: Hit, y: Hit)
    requires Distinct(NamesOf(s)) && x in s && y in s
    ensures x.username == y.username ==> x == y
  {
    var a :| 0 <= a < |s| && s[a] == x;
    var b :| 0 <= b < |s| && s[b] == y;
    assert NamesOf(s)[a] == x.username && NamesOf(s)[b] == y.username;
  }

  /** In a sequence with distinct user names, each hit occurs once. */
  lemma OccursOnce(s: seq<Hit>, a: int)
    requires Distinct(NamesOf(s)) && 0 <= a < |s|
    ensures multiset(s)[s[a]] == 1
  {
    assert s == s[..a] + [s[a]] + s[a + 1..];
    forall k | 0 <= k < |s| && k != a ensures s[k] != s[a] {
      assert NamesOf(s)[k] != NamesOf(s)[a];
    }
    assert s[a] !in s[..a];
    assert s[a] !in s[a + 1..];
  }

  /**
   * `search_leads`: asks the text generator for suggestions (a failure
   * there is not caught; the suggestions are otherwise unused), searches
   * the first five queries without credentials and with limit 10, and
   * returns the best 20 of the de-duplicated, sorted hits.  `search(i)` is
   * the outcome of the `i`-th search.
   */
  method SearchLeads(
    registry: PlatformRegistry, query: string, platform: string, suggestions: Call<Fields>,
    search: int -> Call<seq<Fields>>) returns (r: Call<seq<Hit>>)
    ensures suggestions.Raised? ==> r == Raised(suggestions.error)
    ensures suggestions.Returned? ==> r == Returned(Top(Ranked(Collected(registry.classes, query, platform, search))))
  {
    if suggestions.Raised? {
      return Raised(suggestions.error);
    }
    var queries := BuildSearchQueries(query);
    var all: seq<Hit> := [];
    for i := 0 to MaxSearches
      invariant all == CollectedUpTo(registry.classes, query, platform, search, i)
    {
      var leads := SearchLeadsOnPlatform(registry, platform, queries[i], "", "", SearchLimit, Returned(true), search(i));
      all := all + leads;
    }
    var unique := DedupLeads(all);
    var ranked := SortDesc(unique);
    r := Returned(Top(ranked));
  }

  /** The hits of the first `n` searches, in search order. */
  function CollectedUpTo(
    classes: map<string, AdapterClass>, query: string, platform: string,
    search: int -> Call<seq<Fields>>, n: nat): seq<Hit>
    requires n <= MaxSearches
  {
    if n == 0 then []
    else
      CollectedUpTo(classes, query, platform, search, n - 1)
      + match SearchOutcome(classes, platform, "", "", Returned(true), search(n - 1))
        case None => []
        case Some(results) => HitsOf(platform, Searched(query)[n - 1], results)
  }

  /** All hits the searches of `search_leads` collect. */
  function Collected(
    classes: map<string, AdapterClass>, query: string, platform: string,
    search: int -> Call<seq<Fields>>): seq<Hit>
  {
    CollectedUpTo(classes, query, platform, search, MaxSearches)
  }

  // ---------------------------------------------------------- engagement

  /**
   * `engage_with_lead`: only "follow" can succeed, with the adapter's
   * `follow` result; "like", "message" and every other action give false,
   * as does any exception.
   */
  method EngageWithLead(
    registry: PlatformRegistry, platform: string, username: string, action: string, message: string,
    usernameCreds: string, passwordCreds: string, login: Call<bool>, follow: Call<bool>) returns (r: bool)
    ensures r ==> action == "follow"
    ensures r <==> action == "follow" && match Lookup(registry.classes, platform)
      case None => false
      case Some(c) => Capability(c, true, login).Returned? && Capability(c, true, follow) == Returned(true)
  {
    var adapter := registry.GetAdapter(platform, usernameCreds, passwordCreds);
    if adapter.Raised? {
      return false;
    }
    var c := adapter.value.adapterClass;
    if Capability(c, true, login).Raised? {
      return false;
    }
    if action == "follow" {
      var followed := Capability(c, true, follow);
      return followed.Returned? && followed.value;
    } else if action == "like" {
      return false;
    } else if action == "message" && message != "" {
      return false;
    }
    return false;
  }
}
