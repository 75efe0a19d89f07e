/**
 * The auto-responder: comma-keyword matching, the first-match FAQ choice,
 * the choice between a FAQ answer and a generated one, and the per-platform
 * "last check" cursor that a poll advances only when it completes.  The
 * adapter and the text generator are oracles: their outcomes are
 * parameters.  Nothing is posted back to the platform by `check_and_respond`;
 * each response is only written to the activity log.
 */
module AutoResponse {
  import opened Wrappers
  import opened Text
  import opened Sequences
  import opened Models
  import opened Database
  import opened Platforms
  import opened FaqMatcher

  // ----------------------------------------------------------- keywords

  /** One stripped, lower-cased comma piece matches when it is non-empty and occurs in the lower-cased text. */
  predicate PieceMatches(textLower: string, piece: string) {
    piece != "" && Contains(textLower, piece)
  }

  /** `_keyword_match`: some non-empty comma piece of `keywords` occurs in `text`, ignoring case. */
  predicate KeywordMatches(text: string, keywords: string) {
    && keywords != ""
    && exists i :: 0 <= i < |KeywordPieces(keywords)| && PieceMatches(Lower(text), KeywordPieces(keywords)[i])
  }

  /** `_keyword_match`, with its loop over the comma pieces and its early return. */
  method KeywordMatch(text: string, keywords: string) returns (r: bool)
    ensures r == KeywordMatches(text, keywords)
  {
    if keywords == "" {
      return false;
    }
    var textLower := Lower(text);
    var parts := Split(keywords, ',');
    ghost var pieces := KeywordPieces(keywords);
    for i := 0 to |parts|
      invariant forall j :: 0 <= j < i ==> !PieceMatches(textLower, pieces[j])
    {
      var keyword := Lower(Strip(parts[i]));
      if keyword != "" && Contains(textLower, keyword) {
        assert PieceMatches(textLower, pieces[i]);
        return true;
      }
    }
    return false;
  }

  /**
   * A keyword match implies a positive FAQ keyword score; the converse fails,
   * since the score counts empty pieces as found and the match ignores them.
   */
  lemma MatchHasPositiveScore(text: string, keywords: string)
    ensures KeywordMatches(text, keywords) ==> KeywordScore(text, keywords) > 0.0
    ensures !KeywordMatches(text, ",") && KeywordScore(text, ",") == 1.0
  {
    KeywordScoreCases(text, keywords);
    if KeywordMatches(text, keywords) {
      var i :| 0 <= i < |KeywordPieces(keywords)| && PieceMatches(Lower(text), KeywordPieces(keywords)[i]);
      assert Contains(Lower(text), KeywordPieces(keywords)[i]);
    }
    EmptyPiecesMatch(text);
    OnlyEmptyPieces(text);
  }

  lemma OnlyEmptyPieces(text: string)
    ensures !KeywordMatches(text, ",")
  {
    assert Join(["", ""], ',') == ",";
    SplitJoin(["", ""], ',');
    assert Strip("") == "" && Lower("") == "";
    assert KeywordPieces(",") == ["", ""];
  }

  // ------------------------------------------------------- FAQ selection

  /** The test of the selection loop: the question, itself read as comma keywords, or the keywords match. */
  predicate FaqMatches(text: string, f: Faq) {
    KeywordMatches(text, f.question) || KeywordMatches(text, f.keywords.GetOr(""))
  }

  /** The first FAQ in list order that matches `text`. */
  function FirstMatch(text: string, faqs: seq<Faq>): Option<Faq> {
    if faqs == [] then None
    else if FaqMatches(text, faqs[0]) then Some(faqs[0])
    else FirstMatch(text, faqs[1..])
  }

  /**
   * `FirstMatch` finds a FAQ exactly when some FAQ matches, and the one it
   * finds matches and is preceded only by FAQs that do not.
   */
  lemma {:induction false} FirstMatchSpec(text: string, faqs: seq<Faq>)
    ensures FirstMatch(text, faqs).None? <==> forall i :: 0 <= i < |faqs| ==> !FaqMatches(text, faqs[i])
    ensures FirstMatch(text, faqs).Some? ==>
      exists i :: 0 <= i < |faqs| && faqs[i] == FirstMatch(text, faqs).value && FaqMatches(text, faqs[i])
        && forall j :: 0 <= j < i ==> !FaqMatches(text, faqs[j])
  {
    if faqs != [] && !FaqMatches(text, faqs[0]) {
      FirstMatchSpec(text, faqs[1..]);
      if FirstMatch(text, faqs).Some? {
        var i :| 0 <= i < |faqs[1..]| && faqs[1..][i] == FirstMatch(text, faqs).value
          && FaqMatches(text, faqs[1..][i]) && forall j :: 0 <= j < i ==> !FaqMatches(text, faqs[1..][j]);
        assert faqs[i + 1] == FirstMatch(text, faqs).value;
        assert forall j :: 0 <= j < i + 1 ==> !FaqMatches(text, faqs[j]) by {
          forall j | 0 <= j < i + 1 ensures !FaqMatches(text, faqs[j]) {
            if j > 0 {
              assert faqs[j] == faqs[1..][j - 1];
            }
          }
        }
      } else {
        forall i | 0 <= i < |faqs| ensures !FaqMatches(text, faqs[i]) {
          if i > 0 {
            assert faqs[i] == faqs[1..][i - 1];
          }
        }
      }
    }
  }

  /** The selection loop of `_process_mention` and `respond_to_comment`, which stops at the first match. */
  method SelectFaq(text: string, faqs: seq<Faq>) returns (r: Option<Faq>)
    ensures r == FirstMatch(text, faqs)
  {
    for i := 0 to |faqs|
      invariant FirstMatch(text, faqs) == FirstMatch(text, faqs[i..])
    {
      assert faqs[i..][1..] == faqs[i + 1..];
      var m := KeywordMatch(text, faqs[i].question);
      if !m {
        m := KeywordMatch(text, faqs[i].keywords.GetOr(""));
      }
      if m {
        return Some(faqs[i]);
      }
    }
    assert faqs[|faqs|..] == [];
    return None;
  }

  // ---------------------------------------------------------- responses

  /** The response: a matched FAQ's answer verbatim, otherwise what the generator gives (or raises). */
  function ResponseFor(text: string, faqs: seq<Faq>, generated: Call<string>): Call<string> {
    match FirstMatch(text, faqs)
    case Some(f) => Returned(f.answer)
    case None => generated
  }

  /** The response source written to the log. */
  function SourceFor(text: string, faqs: seq<Faq>): string {
    match FirstMatch(text, faqs)
    case Some(f) => "FAQ: " + f.question
    case None => "AI-generated"
  }

  /**
   * With a matching FAQ the generator is not consulted: the response is the
   * answer whatever the generator would give, and the source names the
   * question.  Without one the response is the generator's.
   */
  lemma ResponseChoice(text: string, faqs: seq<Faq>, g1: Call<string>, g2: Call<string>)
    ensures FirstMatch(text, faqs).Some? ==>
      && ResponseFor(text, faqs, g1) == ResponseFor(text, faqs, g2) == Returned(FirstMatch(text, faqs).value.answer)
      && SourceFor(text, faqs) == "FAQ: " + FirstMatch(text, faqs).value.question
    ensures FirstMatch(text, faqs).None? ==>
      ResponseFor(text, faqs, g1) == g1 && SourceFor(text, faqs) == "AI-generated"
  {
  }

  /** The activity entry of one processed mention: none when generating the response failed. */
  function MentionLog(platform: string, product: Product, faqs: seq<Faq>, mention: Fields, generated: Call<string>)
    : (r: seq<Activity>)
    ensures |r| <= 1
    ensures r != [] ==> r[0].productId == Some(product.id) && r[0].platform == Some(platform)
  {
    var text := Get(mention, "text", "");
    match ResponseFor(text, faqs, generated)
    case Raised(_) => []
    case Returned(response) =>
      [Activity(Some(product.id), "Auto-responded to " + platform + " mention", Some(platform),
                "Query: " + Take(text, 50) + "... | Response: " + Take(response, 50)
                + "... | Source: " + SourceFor(text, faqs))]
  }

  /** The log entries of a poll over `mentions`, in order; the `i`-th mention's generator outcome is `generated(i)`. */
  function MentionsLog(
    platform: string, product: Product, faqs: seq<Faq>, mentions: seq<Fields>, generated: int -> Call<string>)
    : (r: seq<Activity>)
    ensures |r| <= |mentions|
  {
    if mentions == [] then []
    else
      var n := |mentions| - 1;
      MentionsLog(platform, product, faqs, mentions[..n], generated)
      + MentionLog(platform, product, faqs, mentions[n], generated(n))
  }

  lemma MentionsLogStep(
    platform: string, product: Product, faqs: seq<Faq>, mentions: seq<Fields>, generated: int -> Call<string>, i: int)
    requires 0 <= i < |mentions|
    ensures MentionsLog(platform, product, faqs, mentions[..i + 1], generated)
         == MentionsLog(platform, product, faqs, mentions[..i], generated)
            + MentionLog(platform, product, faqs, mentions[i], generated(i))
  {
    assert mentions[..i + 1][..i] == mentions[..i];
  }

  /**
   * The mentions a poll gets, or `None` when it stops at an exception:
   * the platform has no adapter, or `login` or `get_mentions` raises.
   */
  function Poll(
    classes: map<string, AdapterClass>, platform: string, login: Call<bool>,
    mentions: Call<seq<Fields>>): Option<seq<Fields>>
  {
    match Lookup(classes, platform)
    case None => None
    case Some(c) =>
      if Capability(c, true, login).Raised? then None
      else match Capability(c, [], mentions)
        case Raised(_) => None
        case Returned(ms) => Some(ms)
  }

  /** A cursor value: `since_id` is the platform's entry, if any. */
  function Since(lastCheck: map<string, string>, platform: string): Option<string> {
    if platform in lastCheck then Some(lastCheck[platform]) else None
  }

  /** `AutoResponder`: the running flag and the per-platform cursor. */
  class AutoResponder {
    var isRunning: bool
    var lastCheck: map<string, string>

    /** `_check_interval`, in seconds. */
    const CheckInterval: int := 120

    constructor ()
      ensures !isRunning && lastCheck == map[]
    {
      isRunning := false;
      lastCheck := map[];
    }

    method Start()
      modifies this
      ensures isRunning && lastCheck == old(lastCheck)
    {
      isRunning := true;
    }

    method Stop()
      modifies this
      ensures !isRunning && lastCheck == old(lastCheck)
    {
      isRunning := false;
    }

    /**
     * `_process_mention`: picks the response and logs it.  A failure while
     * generating is caught here and yields `None`.
     */
    method ProcessMention(
      store: Store, product: Product, faqs: seq<Faq>, mention: Fields, platform: string,
      generated: Call<string>) returns (r: Option<string>)
      modifies store
      ensures ResponseFor(Get(mention, "text", ""), faqs, generated).Returned? ==>
        r == Some(ResponseFor(Get(mention, "text", ""), faqs, generated).value)
      ensures ResponseFor(Get(mention, "text", ""), faqs, generated).Raised? ==> r == None
      ensures store.activities == old(store.activities) + MentionLog(platform, product, faqs, mention, generated)
      ensures store.products == old(store.products) && store.posts == old(store.posts)
      ensures store.faqs == old(store.faqs) && store.leads == old(store.leads)
      ensures store.engagement == old(store.engagement)
    {
      var text := Get(mention, "text", "");
      var matched := SelectFaq(text, faqs);
      var response, source;
      if matched.Some? {
        response := matched.value.answer;
        source := "FAQ: " + matched.value.question;
      } else {
        if generated.Raised? {
          return None;
        }
        response := generated.value;
        source := "AI-generated";
      }
      store.LogActivity("Auto-responded to " + platform + " mention", Some(product.id), Some(platform),
        "Query: " + Take(text, 50) + "... | Response: " + Take(response, 50) + "... | Source: " + source);
      r := Some(response);
    }

    /**
     * `check_and_respond`.  Without both credentials, or for an unknown
     * product, nothing happens.  Otherwise the platform is polled from its
     * cursor; when the poll completes every mention is processed and the
     * platform's cursor, and only that one, moves to `now`.  A poll that
     * raises leaves the cursor and the log unchanged.
     */
    method CheckAndRespond(
      store: Store, registry: PlatformRegistry, platform: string, productId: int,
      username: string, password: string, faqs: seq<Faq>,
      login: Call<bool>, mentionsSince: Option<string> -> Call<seq<Fields>>,
      generated: int -> Call<string>, now: string)
      requires store.Valid() && ListsFaqsOf(faqs, store.faqs, productId)
      modifies this, store
      ensures isRunning == old(isRunning)
      ensures store.products == old(store.products) && store.posts == old(store.posts)
      ensures store.faqs == old(store.faqs) && store.leads == old(store.leads)
      ensures store.engagement == old(store.engagement)
      ensures username == "" || password == "" || productId !in old(store.products) ==>
        lastCheck == old(lastCheck) && store.activities == old(store.activities)
      ensures username != "" && password != "" && productId in old(store.products) ==>
        var polled := Poll(registry.classes, platform, login, mentionsSince(Since(old(lastCheck), platform)));
        && (polled.None? ==> lastCheck == old(lastCheck) && store.activities == old(store.activities))
        && (polled.Some? ==>
              && lastCheck == old(lastCheck)[platform := now]
              && store.activities == old(store.activities)
                   + MentionsLog(platform, old(store.products)[productId], faqs, polled.value, generated))
    {
      if username == "" || password == "" {
        return;
      }
      if productId !in store.products {
        return;
      }
      var product := store.products[productId];
      var adapter := registry.GetAdapter(platform, username, password);
      if adapter.Raised? {
        return;
      }
      var c := adapter.value.adapterClass;
      if Capability(c, true, login).Raised? {
        return;
      }
      var fetched := Capability(c, [], mentionsSince(Since(lastCheck, platform)));
      if fetched.Raised? {
        return;
      }
      var mentions := fetched.value;
      var i := 0;
      while i < |mentions|
        invariant 0 <= i <= |mentions|
        invariant lastCheck == old(lastCheck) && isRunning == old(isRunning)
        invariant store.activities == old(store.activities) + MentionsLog(platform, product, faqs, mentions[..i], generated)
        invariant store.products == old(store.products) && store.posts == old(store.posts)
        invariant store.faqs == old(store.faqs) && store.leads == old(store.leads)
        invariant store.engagement == old(store.engagement)
      {
        MentionsLogStep(platform, product, faqs, mentions, generated, i);
        AppendAssoc(old(store.activities), MentionsLog(platform, product, faqs, mentions[..i], generated),
                    MentionLog(platform, product, faqs, mentions[i], generated(i)));
        var _ := ProcessMention(store, product, faqs, mentions[i], platform, generated(i));
        i := i + 1;
      }
      assert mentions[..i] == mentions;
      lastCheck := lastCheck[platform := now];
    }

    /**
     * `respond_to_comment`: for a known product, chooses the response by the
     * same rule (a generator failure here is not caught), then replies
     * through the adapter; any failure there gives `None`.  No credential
     * check is made.
     */
    method RespondToComment(
      store: Store, registry: PlatformRegistry, platform: string, postId: string, comment: string,
      productId: int, username: string, password: string, faqs: seq<Faq>,
      generated: Call<string>, login: Call<bool>, commented: Call<bool>) returns (r: Call<Option<string>>)
      requires store.Valid() && ListsFaqsOf(faqs, store.faqs, productId)
      modifies store
      ensures store.products == old(store.products) && store.posts == old(store.posts)
      ensures store.faqs == old(store.faqs) && store.leads == old(store.leads)
      ensures store.engagement == old(store.engagement)
      ensures productId !in old(store.products) ==> r == Returned(None) && store.activities == old(store.activities)
      ensures productId in old(store.products) && ResponseFor(comment, faqs, generated).Raised? ==>
        r == Raised(ResponseFor(comment, faqs, generated).error) && store.activities == old(store.activities)
      ensures productId in old(store.products) && ResponseFor(comment, faqs, generated).Returned? ==>
        var response := ResponseFor(comment, faqs, generated).value;
        var sent := match Lookup(registry.classes, platform)
          case None => false
          case Some(c) => Capability(c, true, login).Returned? && Capability(c, true, commented).Returned?;
        && (!sent ==> r == Returned(None) && store.activities == old(store.activities))
        && (sent ==>
              && r == Returned(Some(response))
              && store.activities == old(store.activities) + [Activity(Some(productId),
                   "Replied to comment on " + platform, Some(platform),
                   "Comment: " + Take(comment, 50) + "... | Response: " + Take(response, 50) + "...")])
    {
      if productId !in store.products {
        return Returned(None);
      }
      var matched := SelectFaq(comment, faqs);
      var response;
      if matched.Some? {
        response := matched.value.answer;
      } else {
        if generated.Raised? {
          return Raised(generated.error);
        }
        response := generated.value;
      }
      var adapter := registry.GetAdapter(platform, username, password);
      if adapter.Raised? {
        return Returned(None);
      }
      var c := adapter.value.adapterClass;
      if Capability(c, true, login).Raised? || Capability(c, true, commented).Raised? {
        return Returned(None);
      }
      store.LogActivity("Replied to comment on " + platform, Some(productId), Some(platform),
        "Comment: " + Take(comment, 50) + "... | Response: " + Take(response, 50) + "...");
      r := Returned(Some(response));
    }
  }
}
