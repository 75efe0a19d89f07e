# MediaAgent decision logic in Dafny

MediaAgent is a social-media assistant for a product. It can:

- schedule and publish posts;
- answer mentions and comments, from a table of FAQs or with generated text;
- find leads on social platforms and score them;
- drive each platform through an adapter.

This project models the deterministic logic under that machinery and proves
properties of it. The browser, the AI service, the SQL database and the timer
are outside the model. Their outcomes are parameters.

The modules follow the program's packages.

- `Text` (text.dfy): the Python string operations the code relies on. These are
  `lower()`, `strip()`, `split(",")`, `split()`, `sub in s`, `s.count(sub)`,
  `str(i)` and slicing. Each has the facts that the rest of the model needs.
- `Wrappers`, `Sequences`: `Option`, and a distinctness predicate for sequences.
- `Models` (models.dfy): the record types. A `New*` function gives the row as
  stored after insertion, with the column defaults applied.
- `Database` (database.dfy): a `Store` class with one `map<int, Record>` per
  table and the activity log as a sequence.
  - Create, query, update and delete are methods on the store.
  - An `update_*` call takes its keyword arguments as a map from attribute
    name to tagged value. A name that is no column of the record is ignored.
  - Filters treat a falsy argument (`0`, `""`, `None`) as "no filter".
- `Errors` (errors.dfy): the error codes, the message table, `MediaAgentError`
  and `handle_error`.
- `Platforms` (platforms.dfy):
  - the adapter session state (`is_logged_in`, browser, context, page) as a class;
  - the capability methods (`login`, `post`, `search`, ...), dispatched on the
    adapter's class as Python dispatches them to the subclass;
  - the case-insensitive registry, and the registry that package
    initialisation builds.
- `FaqMatcher` (faq_matcher.dfy): the keyword score, the word-set similarity,
  the combined score and the arg-max loop with its 0.3 threshold.
- `AutoResponse` (auto_response.dfy): comma-keyword matching, the first-match
  FAQ choice, and the FAQ-or-generated response. Also the `AutoResponder`
  class with its running flag and its per-platform "last check" cursor.
- `Discovery` (discovery.dfy): the relevance score, the list of search queries,
  the per-platform result mapping, the dedup/sort/top-20 pipeline, and
  `engage_with_lead`.
- `Scheduler` (scheduler.dfy): the job table of `PostScheduler`, start and
  stop, the due-post sweep and the status a publish attempt leaves.
- `FaqExamples`, `ExampleText`, `DiscoveryExamples`: the concrete cases of the
  test suite, and two worked examples, each proved on the model.

Modelling conventions:

- An operation that may raise returns `Call<T>`, which is `Returned(value)` or
  `Raised(error)`.
- Platform capabilities (`login`, `post`, `search`, ...) are resolved by
  `Platforms.Capability`:
  - the base class raises `NotImplementedError`;
  - the LinkedIn stub returns its constant;
  - a browser-driven class returns whatever the browser outcome parameter says.
- Scores are `real`, so the arithmetic is exact.
- Timestamps are integers, and "now" is a parameter.
- The primary key a new row receives is a parameter: any key not yet in use.

## Model

| member | source | states |
|---|---|---|
| Errors.FromValue | src/media_agent/config/errors.py:7-29 | decoding a code string gives a code whose value is that string |
| Errors.ValueRoundTrip | src/media_agent/config/errors.py:7-29 | decoding the value of a code gives the code back |
| Errors.ValuesDistinct | src/media_agent/config/errors.py:7-29 | two codes with the same string value are the same code |
| Errors.MessagesTotal | src/media_agent/config/errors.py:32-48 | every one of the eleven codes has an entry in the message table |
| Errors.UserMessage | src/media_agent/config/errors.py:63 | the user message of a code is its entry in the message table |
| Errors.NewError | src/media_agent/config/errors.py:54-63 | an error keeps its class, message, code and details, and its user message is the table entry for its code |
| Errors.NewDefaultError | src/media_agent/config/errors.py:57-58 | without a code or details, an error has code UNKNOWN, no details and the UNKNOWN message |
| Errors.ToStringPrefix | src/media_agent/config/errors.py:66-67 | the rendering is the bracketed code value, a blank and the message, and the code can be read back from it |
| Errors.HandleError | src/media_agent/config/errors.py:90-113 | success is always false. An agent error of any subclass gives its code value, user message and details. Any other exception gives ERR000, the UNKNOWN message and its string |
| Errors.HandleConstructedError | src/media_agent/config/errors.py:54-105 | handling a freshly constructed error reports the code value, table message and details it was built with |
| Models.NewProduct | src/media_agent/models/models.py:17-27 | a new product keeps the given fields; brand voice defaults to "friendly"; both time stamps are the insertion time |
| Models.NewPost | src/media_agent/models/models.py:34-45 | a new post keeps the given fields; platform defaults to "twitter" and status to "draft"; it has no publication time |
| Models.NewFaq | src/media_agent/models/models.py:50-59 | a new FAQ keeps question, answer and nullable keywords |
| Models.NewLead | src/media_agent/models/models.py:64-78 | a new lead keeps the given fields; followers default to 0, score to 0.0 and status to "new" |
| Models.NewCampaign | src/media_agent/models/models.py:150-161 | a new campaign keeps the given fields; status defaults to "active" |
| Models.NewEngagementItem | src/media_agent/models/models.py:164-178 | a new queue item has response source and status "pending", and neither a generated response nor a send time |
| Models.ConstructedRecordsKeepValues | tests/test_media_agent.py:10-70 | the FAQ, lead and post the tests build keep keywords "how, work", score 0.85, 1000 followers and status "draft" |
| Database.ArgsFitMerge | src/media_agent/models/database.py:97-99 | argument maps that each fit the columns fit them when merged |
| Database.TextArgMerge | src/media_agent/models/database.py:162-164 | reading a text column through two successive argument maps equals reading it through their merge |
| Database.MaybeTextArgMerge | src/media_agent/models/database.py:162-164 | the same, for a nullable text column |
| Database.NumberArgMerge | src/media_agent/models/database.py:162-164 | the same, for an integer column |
| Database.ScoreArgMerge | src/media_agent/models/database.py:274-276 | the same, for a score column |
| Database.WhenArgMerge | src/media_agent/models/database.py:162-164 | the same, for a time column |
| Database.PostSetThenRest | src/media_agent/models/database.py:162-164 | a `setattr` of any one argument followed by the remaining ones gives the whole update, whichever argument goes first |
| Database.PostUpdateShape | src/media_agent/models/database.py:153-167 | an update keeps the id and creation time; it is decided by the arguments that name columns alone; no arguments change nothing; an attribute that is no column is ignored |
| Database.PostUpdatesMerge | src/media_agent/models/database.py:153-167 | two successive updates equal one update with the merged arguments |
| Database.LeadSetThenRest | src/media_agent/models/database.py:274-276 | as for posts: one setattr and then the rest is the whole update |
| Database.LeadUpdateShape | src/media_agent/models/database.py:265-279 | as for posts: id and creation time kept, unknown names ignored, empty update is the identity |
| Database.LeadUpdatesMerge | src/media_agent/models/database.py:265-279 | two successive lead updates equal one with the merged arguments |
| Database.ProductSetThenRest | src/media_agent/models/database.py:97-99 | one setattr and then the rest is the whole update |
| Database.ProductUpdateShape | src/media_agent/models/database.py:89-102 | an update keeps id and creation time and ignores unknown names. An empty update changes nothing; any actual change stamps the update time |
| Database.ApplyPostArgs | src/media_agent/models/database.py:162-164 | the setattr loop over the arguments gives the update the arguments describe |
| Database.ApplyLeadArgs | src/media_agent/models/database.py:274-276 | the same for leads |
| Database.ApplyProductArgs | src/media_agent/models/database.py:97-99 | the same for products |
| Database.EngagementUpdated | src/media_agent/models/database.py:594-602 | response and source are overwritten only by truthy arguments; status likewise. The send time is set exactly when a truthy status "sent" is given. All other fields are kept |
| Database.FiltersCombine | src/media_agent/models/database.py:144-150 | with no truthy filter every post is selected; selection is the conjunction of the applied filters; product id 0 and status "" filter nothing |
| Database.Store.constructor | src/media_agent/models/database.py:27-30 | a new store has empty tables and an empty log |
| Database.Store.CreateProduct | src/media_agent/models/database.py:55-72 | adds exactly the new product under a fresh key; other tables unchanged |
| Database.Store.CreatePost | src/media_agent/models/database.py:116-135 | adds exactly the new post; other tables unchanged |
| Database.Store.CreateFaq | src/media_agent/models/database.py:182-199 | adds exactly the new FAQ; other tables unchanged |
| Database.Store.CreateLead | src/media_agent/models/database.py:222-247 | adds exactly the new lead with status "new"; other tables unchanged |
| Database.Store.AddToEngagementQueue | src/media_agent/models/database.py:548-567 | adds exactly the new pending item; other tables unchanged |
| Database.Store.LogActivity | src/media_agent/models/database.py:283-300 | appends one entry to the log and changes no table |
| Database.Store.GetProduct | src/media_agent/models/database.py:81-86 | the product with that id, or nothing when there is none |
| Database.Store.GetPosts | src/media_agent/models/database.py:138-150 | exactly the stored posts the filters select |
| Database.Store.GetLeads | src/media_agent/models/database.py:250-262 | exactly the stored leads the filters select |
| Database.Store.GetEngagementQueue | src/media_agent/models/database.py:570-579 | exactly the stored queue items the filters select |
| Database.Store.GetFaqs | src/media_agent/models/database.py:202-207 | exactly the FAQs of the product |
| Database.Store.GetPostsUnfiltered | src/media_agent/models/database.py:144-150 | with only falsy filter arguments every post is listed |
| Database.Store.UpdatePost | src/media_agent/models/database.py:153-167 | an unknown id gives nothing and changes nothing; otherwise the row becomes the described update and is returned; other tables unchanged |
| Database.Store.UpdateLead | src/media_agent/models/database.py:265-279 | the same for leads |
| Database.Store.UpdateProduct | src/media_agent/models/database.py:89-102 | the same for products, with the update time stamped on a change |
| Database.Store.UpdateEngagementItem | src/media_agent/models/database.py:582-605 | an unknown id gives nothing and changes nothing; otherwise the item becomes the truthy-argument update and is returned |
| Database.Store.DeletePost | src/media_agent/models/database.py:170-178 | true exactly when the post existed; afterwards it is absent and nothing else changed |
| Database.Store.DeleteFaq | src/media_agent/models/database.py:210-218 | true exactly when the FAQ existed; afterwards it is absent |
| Database.Store.DeleteProduct | src/media_agent/models/database.py:105-112 | true exactly when the product existed. It is then absent, and so are its posts, FAQs and leads (cascade); otherwise nothing changes |
| Platforms.Get | src/media_agent/discovery/discovery.py:68-72 | `dict.get`: the entry when the key is present, the default otherwise |
| Platforms.ClassNamesDistinct | src/media_agent/platforms/base.py:30 | different adapter classes have different class names |
| Platforms.CookiesFileNamesDistinct | src/media_agent/platforms/base.py:25-30 | the cookie file is the class name followed by "_cookies.json", and two classes share a file name only when they are the same class |
| Platforms.PlatformAdapter.constructor | src/media_agent/platforms/base.py:16-23 | a new adapter keeps its credentials, is logged out and has no browser, context or page |
| Platforms.PlatformAdapter.InitBrowser | src/media_agent/platforms/base.py:32-52 | with a browser present nothing changes; otherwise browser, context and page are installed together; the login flag is kept |
| Platforms.PlatformAdapter.SaveCookies | src/media_agent/platforms/base.py:54-59 | the cookies of the current context, if any, are written; the session is unchanged |
| Platforms.PlatformAdapter.CloseBrowser | src/media_agent/platforms/base.py:61-68 | with a browser present its cookies are saved first; afterwards there is no browser, context or page; the login flag is kept |
| Platforms.PlatformAdapter.Logout | src/media_agent/platforms/base.py:98-102 | returns true and leaves the adapter logged out without a browser |
| Platforms.PlatformAdapter.Login | src/media_agent/platforms/base.py:70-72 | the outcome is `Capability` of the adapter's own class: the base class raises, a LinkedIn adapter is logged in afterwards and returns true, a browser-driven adapter gives its browser outcome; the base and LinkedIn classes start no browser |
| Platforms.PlatformAdapter.Act | src/media_agent/platforms/linkedin.py:15-37 | the shared body of the four actions: a LinkedIn adapter logs in first when logged out and returns true; the other classes behave as for `login` |
| Platforms.PlatformAdapter.Post | src/media_agent/platforms/base.py:74-76 | as for `login`: the base class raises, LinkedIn logs in if needed and returns true, a browser-driven class gives its outcome |
| Platforms.PlatformAdapter.Like | src/media_agent/platforms/base.py:78-80 | as for `post` |
| Platforms.PlatformAdapter.Comment | src/media_agent/platforms/base.py:82-84 | as for `post` |
| Platforms.PlatformAdapter.Follow | src/media_agent/platforms/base.py:86-88 | as for `post` |
| Platforms.PlatformAdapter.Search | src/media_agent/platforms/base.py:90-92 | the base class raises, LinkedIn returns no results, a browser-driven class gives its outcome; the base and LinkedIn classes leave the session unchanged |
| Platforms.PlatformAdapter.GetMentions | src/media_agent/platforms/base.py:94-96 | the base class raises, LinkedIn returns no mentions, a browser-driven class gives its outcome; the base and LinkedIn classes leave the session unchanged |
| Platforms.Capability | src/media_agent/platforms/base.py:70-96 | the outcome of a capability call per class: the base class raises, the LinkedIn stub returns its constant, a browser-driven class gives the browser outcome |
| Platforms.Lookup | src/media_agent/platforms/base.py:117 | a class is found exactly when the lower-cased name is registered, and it is the one registered there |
| Platforms.LookupCaseInsensitive | src/media_agent/platforms/base.py:111-117 | names that agree after lower-casing resolve alike |
| Platforms.PlatformRegistry.constructor | src/media_agent/platforms/base.py:108-109 | a new registry is empty |
| Platforms.PlatformRegistry.Register | src/media_agent/platforms/base.py:111-113 | stores the class under the lower-cased name, overwriting in place; a new name is appended to the key order |
| Platforms.PlatformRegistry.GetAdapter | src/media_agent/platforms/base.py:115-120 | an unregistered name raises "Platform ... not supported"; otherwise a fresh logged-out adapter of the registered class with the given credentials |
| Platforms.PlatformRegistry.ListPlatforms | src/media_agent/platforms/base.py:122-124 | exactly the registered names, each once |
| Platforms.DefaultRegistry | src/media_agent/platforms/__init__.py:8-10 | the package registry holds exactly twitter and instagram, listed in that order |
| Platforms.LowerCapitalTwitter | src/media_agent/platforms/base.py:117 | "Twitter" lower-cases to "twitter" |
| Platforms.DefaultLookups | src/media_agent/platforms/__init__.py:8-10 | "twitter", "Twitter" and "instagram" resolve; "facebook" and "linkedin" do not |
| Platforms.TwitterAdapterExample | tests/test_media_agent.py:130-138 | `get_adapter("twitter", "user", "pass")` gives a Twitter adapter for "user", whose `login` gives the browser outcome rather than the base class's exception |
| Platforms.LinkedInExample | src/media_agent/platforms/linkedin.py:10-45 | `post` on a fresh LinkedIn adapter logs it in and returns true whatever the browser outcome, `search` returns no results, and no browser is started |
| Platforms.BaseAdapterExample | src/media_agent/platforms/base.py:70-88 | on the base class itself, `login` and `follow` raise `NotImplementedError` |
| Text.Lower | src/media_agent/content/faq_matcher.py:21 | lower-casing keeps the length and maps each character |
| Text.LowerNoCapitals | src/media_agent/platforms/base.py:113 | a string without capitals is its own lower-case form |
| Text.LowerIdempotent | src/media_agent/platforms/base.py:111-117 | lower-casing twice is lower-casing once |
| Text.LowerAppend | src/media_agent/content/faq_matcher.py:21 | lower-casing distributes over concatenation |
| Text.TrimLeftSpec | src/media_agent/content/faq_matcher.py:22 | left trimming removes exactly a leading run of white space |
| Text.TrimRightSpec | src/media_agent/content/faq_matcher.py:22 | right trimming removes exactly a trailing run of white space |
| Text.StripSpec | src/media_agent/content/faq_matcher.py:22 | `strip()` leaves no white space at either end, and is empty exactly for an all-white-space string |
| Text.StripTrimmed | src/media_agent/content/faq_matcher.py:22 | a string with no white space at either end is its own strip |
| Text.StripIdempotent | src/media_agent/content/faq_matcher.py:22 | stripping twice is stripping once |
| Text.Split | src/media_agent/content/faq_matcher.py:22 | `split(",")` always yields at least one piece |
| Text.SplitPiecesLackSep | src/media_agent/content/faq_matcher.py:22 | no piece contains the separator |
| Text.JoinSplit | src/media_agent/content/faq_matcher.py:22 | joining the pieces with the separator gives back the string |
| Text.SplitJoin | src/media_agent/content/faq_matcher.py:22 | splitting a join of separator-free pieces gives back the pieces |
| Text.TakeWordSpec | src/media_agent/content/faq_matcher.py:29 | a word is the longest white-space-free prefix |
| Text.WordsAreWords | src/media_agent/content/faq_matcher.py:29-30 | every token of `split()` is non-empty and free of white space |
| Text.WordsCons | src/media_agent/content/faq_matcher.py:29-30 | a word followed by white space or the end is the first token |
| Text.IsPrefixIff | src/media_agent/content/faq_matcher.py:24 | prefix means the leading slice equals the candidate |
| Text.ContainsIff | src/media_agent/content/faq_matcher.py:24 | `sub in s` holds exactly when `sub` occurs at some index |
| Text.ContainsFirstChar | src/media_agent/discovery/discovery.py:94 | a string lacking the first character of `sub` does not contain `sub` |
| Text.NotContainsPair | src/media_agent/discovery/discovery.py:94 | a string lacking two adjacent characters of `sub` does not contain `sub` |
| Text.NotContainsTriple | src/media_agent/discovery/discovery.py:94 | a string lacking three adjacent characters of `sub` does not contain `sub` |
| Text.ContainsAt | src/media_agent/discovery/discovery.py:94 | an occurrence at a known index means containment |
| Text.ContainsEmpty | src/media_agent/content/faq_matcher.py:24 | the empty string is contained in every string |
| Text.CountOccPositive | src/media_agent/discovery/discovery.py:102 | `s.count(sub) >= 1` exactly when `sub in s` |
| Text.CountOccSkip | src/media_agent/discovery/discovery.py:102 | a prefix without the first character of `sub` adds no occurrences |
| Text.CountOccOnce | src/media_agent/discovery/discovery.py:102 | one occurrence with none before or after counts 1 |
| Text.Take | src/media_agent/engagement/auto_response.py:127 | `s[:n]` is the prefix of length min(n, len) |
| Text.NatToString | src/media_agent/scheduler/scheduler.py:49 | decimal digits only, at least one, and at least two from 10 on |
| Text.NatToStringInjective | src/media_agent/scheduler/scheduler.py:49 | different numbers have different decimal strings |
| Text.IntToStringInjective | src/media_agent/scheduler/scheduler.py:49 | different integers have different strings |
| FaqMatcher.KeywordPieces | src/media_agent/content/faq_matcher.py:22 | one stripped, lower-cased piece per comma field, and never no piece |
| FaqMatcher.CountIn | src/media_agent/content/faq_matcher.py:24 | the count is at most the number of pieces. It is maximal exactly when every piece occurs, and zero exactly when none does |
| FaqMatcher.KeywordScore | src/media_agent/content/faq_matcher.py:16-25 | the keyword score lies in [0, 1] |
| FaqMatcher.KeywordScoreCases | src/media_agent/content/faq_matcher.py:16-25 | 0 for empty keywords; otherwise the found pieces over the number of pieces; 1 exactly when all pieces occur |
| FaqMatcher.EmptyPiecesMatch | src/media_agent/content/faq_matcher.py:22-25 | empty comma pieces count as found: the keywords "," score 1 against any query |
| FaqMatcher.SetSimilarity | src/media_agent/content/faq_matcher.py:32-36 | the set similarity lies in [0, 1] |
| FaqMatcher.TextSimilarity | src/media_agent/content/faq_matcher.py:27-36 | the text similarity lies in [0, 1] |
| FaqMatcher.SetSimilarityCases | src/media_agent/content/faq_matcher.py:32-36 | 0 exactly when the word sets are disjoint (including an empty one); 1 exactly when they are equal and non-empty |
| FaqMatcher.SetSimilaritySymmetric | src/media_agent/content/faq_matcher.py:35-36 | the set similarity is symmetric |
| FaqMatcher.SimilarityCases | src/media_agent/content/faq_matcher.py:27-36 | the same two cases on the lower-cased word sets of the texts |
| FaqMatcher.SimilaritySymmetric | src/media_agent/content/faq_matcher.py:27-36 | the text similarity is symmetric in query and question |
| FaqMatcher.CombinedScore | src/media_agent/content/faq_matcher.py:51-53 | the combined score lies in [0, 1] |
| FaqMatcher.Scores | src/media_agent/content/faq_matcher.py:50-53 | one combined score per FAQ, in order |
| FaqMatcher.Best | src/media_agent/content/faq_matcher.py:47-57 | the best score bounds every score and is non-negative. A chosen index has a positive score equal to it, with only lower scores before it (first maximum). No choice means best score 0 |
| FaqMatcher.BestReaches | src/media_agent/content/faq_matcher.py:47-59 | the best score reaches a positive threshold exactly when some FAQ's score does |
| FaqMatcher.DecideNone | src/media_agent/content/faq_matcher.py:59-62 | no match exactly when every combined score is below 0.3 |
| FaqMatcher.DecideSome | src/media_agent/content/faq_matcher.py:47-60 | a match has score at least 0.3 and is the first FAQ reaching the maximum combined score |
| FaqMatcher.FindMatchingFaq | src/media_agent/content/faq_matcher.py:38-62 | over the listing `get_faqs` gives of the product's rows, the loop with its strict `>` gives the decision above, and a returned FAQ is one of the product's rows |
| FaqExamples.KeywordMatchTest | tests/test_media_agent.py:82-86 | "How does this product work?" against "how, work, product" scores above 0 |
| FaqExamples.KeywordNoMatchTest | tests/test_media_agent.py:89-93 | "Hello world" against "pricing, cost, buy" scores exactly 0 |
| FaqExamples.SimilarityTest | tests/test_media_agent.py:100-104 | "How does it work?" against "How does this work?" has similarity 3/4 |
| FaqExamples.MatchExample | src/media_agent/content/faq_matcher.py:51-62 | that query against that question with keywords "how, work" scores 0.9 and is returned as the match |
| AutoResponse.KeywordMatch | src/media_agent/engagement/auto_response.py:141-151 | the loop with its early return is true exactly when the keywords are non-empty and some non-empty stripped lower-cased piece occurs in the lower-cased text |
| AutoResponse.MatchHasPositiveScore | src/media_agent/engagement/auto_response.py:141-151 | a keyword match implies a positive FAQ keyword score, but not conversely: "," scores 1 and never matches |
| AutoResponse.OnlyEmptyPieces | src/media_agent/engagement/auto_response.py:149 | empty pieces never match |
| AutoResponse.FirstMatchSpec | src/media_agent/engagement/auto_response.py:102-106 | no FAQ is chosen exactly when none matches. A chosen FAQ matches, by question or keywords, and every FAQ before it does not |
| AutoResponse.SelectFaq | src/media_agent/engagement/auto_response.py:102-106 | the loop with `break` chooses the first matching FAQ |
| AutoResponse.ResponseChoice | src/media_agent/engagement/auto_response.py:108-119 | with a match the response is the answer, whatever the generator gives, and the source is "FAQ: " plus the question; without one the response is the generator's and the source "AI-generated" |
| AutoResponse.MentionLog | src/media_agent/engagement/auto_response.py:122-128 | at most one log entry per mention, for the product and platform |
| AutoResponse.MentionsLog | src/media_agent/engagement/auto_response.py:72-80 | at most one log entry per mention over a poll |
| AutoResponse.MentionsLogStep | src/media_agent/engagement/auto_response.py:72-80 | the log of one more mention extends the log by that mention's entry |
| AutoResponse.AutoResponder.constructor | src/media_agent/engagement/auto_response.py:20-24 | a new responder is not running and has no cursors |
| AutoResponse.AutoResponder.Start | src/media_agent/engagement/auto_response.py:26-29 | sets the running flag; cursors unchanged |
| AutoResponse.AutoResponder.Stop | src/media_agent/engagement/auto_response.py:31-34 | clears the running flag; cursors unchanged |
| AutoResponse.AutoResponder.ProcessMention | src/media_agent/engagement/auto_response.py:88-139 | returns the chosen response and logs it. A generator failure is caught, gives nothing and logs nothing. No table changes |
| AutoResponse.AutoResponder.CheckAndRespond | src/media_agent/engagement/auto_response.py:36-86 | missing credentials or an unknown product change nothing. A poll that raises changes nothing. A completed poll logs every mention in order and moves that platform's cursor, and only that one, to now |
| AutoResponse.AutoResponder.RespondToComment | src/media_agent/engagement/auto_response.py:153-213 | an unknown product gives None. A generator failure propagates. Otherwise a reply that logs in and comments gives the response and logs it, and any adapter failure gives None |
| Discovery.KeywordHits | src/media_agent/discovery/discovery.py:93-95 | at most one hit per keyword |
| Discovery.KeywordHitsCount | src/media_agent/discovery/discovery.py:93-95 | the hit count is the number of keywords contained in the text |
| Discovery.RelevanceBounds | src/media_agent/discovery/discovery.py:82-106 | the score lies in [0, 1]; 0 for empty text; below the cap it is the uncapped sum; two occurrences of the query give at least 0.4 |
| Discovery.EmptyQueryBonus | src/media_agent/discovery/discovery.py:97-104 | an empty query is found in any text and counted more than once, so it adds 0.4 |
| Discovery.RelevanceScore | src/media_agent/discovery/discovery.py:82-106 | the accumulating loop gives the relevance score |
| Discovery.SearchQueries | src/media_agent/discovery/discovery.py:124-129 | six queries with a non-empty query, five without |
| Discovery.Searched | src/media_agent/discovery/discovery.py:134 | exactly five searches are made |
| Discovery.SearchedQueries | src/media_agent/discovery/discovery.py:124-134 | the searches are the query and keywords 0 to 3, or keywords 0 to 4 for an empty query |
| Discovery.BuildSearchQueries | src/media_agent/discovery/discovery.py:124-129 | the append loop builds that query list |
| Discovery.HitOf | src/media_agent/discovery/discovery.py:68-74 | a lead has the platform, the result's username and text (default ""), and the relevance of its text |
| Discovery.HitsOf | src/media_agent/discovery/discovery.py:66-76 | one lead per raw result, in order |
| Discovery.SearchLeadsOnPlatform | src/media_agent/discovery/discovery.py:45-80 | an unknown platform, a failed login or a failed search give no leads. Login is tried only with both credentials. Otherwise the results are mapped in order |
| Discovery.DedupFromInput | src/media_agent/discovery/discovery.py:143-148 | every kept lead comes from the input and has a non-empty username |
| Discovery.DedupNames | src/media_agent/discovery/discovery.py:143-148 | the kept usernames are exactly the input's non-empty usernames |
| Discovery.DedupDistinct | src/media_agent/discovery/discovery.py:143-148 | the kept usernames are pairwise distinct |
| Discovery.DedupFirst | src/media_agent/discovery/discovery.py:143-148 | each kept lead is the first input lead with its username |
| Discovery.DedupLeads | src/media_agent/discovery/discovery.py:143-148 | the loop with the `seen` set gives the dedup |
| Discovery.InsertPermutes | src/media_agent/discovery/discovery.py:150 | insertion places the element without losing or adding any |
| Discovery.InsertSorted | src/media_agent/discovery/discovery.py:150 | insertion keeps a descending list descending |
| Discovery.InsertStable | src/media_agent/discovery/discovery.py:150 | insertion keeps the order among leads of equal score |
| Discovery.SortDescSpec | src/media_agent/discovery/discovery.py:150 | the sort is descending by score, a permutation, and stable (leads of each score keep their input order) |
| Discovery.Top | src/media_agent/discovery/discovery.py:152 | at most 20 leads |
| Discovery.RankedSpec | src/media_agent/discovery/discovery.py:143-150 | the ranked list is descending, a permutation of the dedup, with distinct usernames |
| Discovery.TopSpec | src/media_agent/discovery/discovery.py:152 | truncation keeps the order and distinct usernames; any lead outscoring a returned one is returned |
| Discovery.SearchResultSpec | src/media_agent/discovery/discovery.py:143-152 | at most 20 leads, descending, each the first with its non-empty username, distinct usernames, and no better dedup lead left out |
| Discovery.TopKeepsBetter | src/media_agent/discovery/discovery.py:150-152 | a lead of the sorted list outscoring a returned one is itself returned |
| Discovery.NamesOfDistinctPermutation | src/media_agent/discovery/discovery.py:150 | a permutation of a list with distinct usernames has distinct usernames |
| Discovery.SearchLeads | src/media_agent/discovery/discovery.py:108-152 | a failing suggestion call propagates; otherwise the top 20 of the ranked dedup of all search results |
| Discovery.EngageWithLead | src/media_agent/discovery/discovery.py:179-208 | true only for "follow", and then exactly when the platform is registered, login succeeds and `follow` returns true |
| DiscoveryExamples.ExampleKeywords | src/media_agent/discovery/discovery.py:22-27 | in the example text exactly keywords 0 and 8 ("link in bio", "link in bio tool") occur |
| DiscoveryExamples.ExampleQuery | src/media_agent/discovery/discovery.py:97-104 | the query "link in bio" occurs exactly once in the example text |
| DiscoveryExamples.RelevanceOfFacts | src/media_agent/discovery/discovery.py:87-106 | a text with those facts scores 0.7 against "link in bio" |
| DiscoveryExamples.RelevanceExample | src/media_agent/discovery/discovery.py:22-104 | "Check out this link in bio tool for creators" scores 0.7 against "link in bio" (2·0.2 + 0.3) |
| ExampleText.LowerExample | src/media_agent/discovery/discovery.py:87 | the example text lower-cases to its expected form |
| Scheduler.PublishJobIds | src/media_agent/scheduler/scheduler.py:47-71 | each post has its own publish job id, and none equals "check_posts" |
| Scheduler.PublishStatus | src/media_agent/scheduler/scheduler.py:97-117 | "published" exactly when an adapter exists and its `post` returns, whatever it returns; "failed" otherwise |
| Scheduler.PublishLog | src/media_agent/scheduler/scheduler.py:105-113 | one log entry, for the post's platform, when an adapter was found; none when the platform is unsupported |
| Scheduler.Swept | src/media_agent/scheduler/scheduler.py:73-82 | a sweep keeps the set of post ids |
| Scheduler.SweptShape | src/media_agent/scheduler/scheduler.py:77-82 | unselected posts are left alone; a selected post changes only its status, to "published" or "failed"; a second sweep at the same time changes nothing |
| Scheduler.SweptIdsOfListing | src/media_agent/scheduler/scheduler.py:77-82 | over the listing of scheduled posts, the due posts are exactly the selected ones |
| Scheduler.SweepLogStep | src/media_agent/scheduler/scheduler.py:80-82 | the log of one more listed post extends the log by its entry |
| Scheduler.SweptByListing | src/media_agent/scheduler/scheduler.py:77-82 | publishing exactly the due listed posts gives the swept table |
| Scheduler.NotYetSwept | src/media_agent/scheduler/scheduler.py:80-82 | a listed post is not among those published before it |
| Scheduler.PartlySweptStep | src/media_agent/scheduler/scheduler.py:80-82 | publishing one more post updates that one row |
| Scheduler.StatusUpdate | src/media_agent/scheduler/scheduler.py:107 | `update_post(status=s)` changes only the status |
| Scheduler.SetStatus | src/media_agent/scheduler/scheduler.py:105-117 | the post's status becomes `s` when the post exists; nothing else changes |
| Scheduler.PostScheduler.constructor | src/media_agent/scheduler/scheduler.py:20-22 | a new scheduler is not running and has no jobs |
| Scheduler.PostScheduler.Start | src/media_agent/scheduler/scheduler.py:24-38 | when not running, starts and installs the single 60-second "check_posts" job; otherwise changes nothing |
| Scheduler.PostScheduler.Stop | src/media_agent/scheduler/scheduler.py:40-45 | when running, stops and clears the flag; the job table stays |
| Scheduler.PostScheduler.SchedulePost | src/media_agent/scheduler/scheduler.py:47-60 | the post's job runs at the latest schedule time; every other job is unchanged |
| Scheduler.PostScheduler.CancelScheduledPost | src/media_agent/scheduler/scheduler.py:64-71 | removes the post's job if present, silently otherwise; other jobs unchanged |
| Scheduler.PostScheduler.ScheduledJobs | src/media_agent/scheduler/scheduler.py:119-121 | exactly the jobs in the table |
| Scheduler.PostScheduler.CheckDuePosts | src/media_agent/scheduler/scheduler.py:73-82 | the loop over the listing publishes exactly the scheduled posts that are due, in list order. The table ends swept, the log grows by their entries, and other tables are unchanged |
| Scheduler.PostScheduler.SweepOne | src/media_agent/scheduler/scheduler.py:80-82 | one turn of the sweep |
| Scheduler.PostScheduler.PublishPost | src/media_agent/scheduler/scheduler.py:84-95 | an id not in the table changes nothing; otherwise the post is published as described |
| Scheduler.PostScheduler.PublishRecord | src/media_agent/scheduler/scheduler.py:97-117 | the status becomes the publish status and the log grows by the publish entries; other tables unchanged |

## Left out

- The SQL order of `get_posts`, `get_leads`, `get_faqs` and `get_engagement_queue` is not modelled: the queries return sets. Where a caller iterates over a listing (`check_due_posts`, `find_matching_faq` and the auto-responder's FAQ loops), the listing is a parameter tied to the table by a predicate (`ListsScheduled`, `ListsFaqsOf`).
- `get_products`, `get_recent_activities` and the analytics functions (`get_analytics_summary`, `get_analytics_by_platform`, `record_analytics`) are not modelled. A product lookup by id reads the products table directly.
- Templates and campaigns are not modelled: `create_template`, `get_templates`, `delete_template`, `create_campaign`, `get_campaigns`, `update_campaign` and `delete_campaign`. Only the campaign column defaults (`Models.NewCampaign`) are.
- The records `PlatformCredential`, `ActivityLog.timestamp`, `Analytics` and `PostTemplate` are not modelled, and neither are the ORM relationships. Their one behavioural effect, the cascading delete, is in `DeleteProduct`.
- Database failures (a raised SQL error) are not modelled. Every store operation succeeds.
- Updates do not model the reserved attributes `id`, `created_at` and `updated_at`, and do not model arguments of a type other than the column's. `ArgsFit` excludes both.
- Database.Store.UpdateProduct: the `onupdate` time stamp is modelled as set exactly when some column value changes, which is when the ORM writes the row back.
- The engines, sessions, `init_db`, `get_db` and the module singletons (`get_faq_matcher`, `get_auto_responder`, `get_lead_discovery`, `get_post_scheduler`, `start_scheduler`, `stop_scheduler`) are plumbing and are not modelled.
- The browser-driven adapters (Twitter, Instagram, Facebook) are represented only by the outcome parameter of their calls. `Capability` chooses between that parameter, the base class's exception and the LinkedIn constant.
- Platforms.PlatformAdapter.Login: for a browser-driven class (and likewise in `Post`, `Like`, `Comment`, `Follow`, `Search` and `GetMentions`) the contract states the outcome only, not what the browser automation does to the session (the login flag, the browser, context and page, the saved cookies), because that automation is not modelled.
- Cookie persistence is file I/O. `SaveCookies` records which context was saved. That cookie loading in `init_browser` may fail and fall back to a new context is not modelled. The cookie directory (the project root) is not modelled either; only the file name is.
- The AI engine is a parameter. This covers `generate_response` and the suggestions call in `get_search_suggestions`. `save_lead` only forwards to `create_lead`, which is modelled.
- The search oracle of `search_leads` is indexed by the position of the search (0 to 4). A real adapter may answer the same query differently at different times.
- APScheduler's timers and asyncio concurrency are left out. Jobs are entries in a map, and "now" is a parameter.
- Logging and `print` are left out.
- Scores are exact reals. The model does not claim bit-exact agreement with Python floats: for example, 0.2 + 0.2 + 0.3 is 0.7 here, whereas the float sum may differ in its last bit.
- Lower-casing, `strip()` and `split()` are modelled on ASCII: only A-Z are lower-cased, and white space is the space and the control characters 9-13 and 28-31. Unicode case mapping and Unicode white space are left out.
- Platforms.PlatformRegistry.ListPlatforms: its contract states membership and distinctness, not order. The order is the `names` field, which `Register` keeps in insertion order and whose value `DefaultRegistry` states.

## Behaviours worth knowing

The model follows the code, including these behaviours, each proved on the
model.

- `check_and_respond` (auto_response.py:36-85) has the docstring "Check for new mentions and respond". It writes each response only to the activity log (auto_response.py:122-128). It creates no engagement queue item and posts nothing back to the platform. `AutoResponse.MentionsLog` and `AutoResponse.AutoResponder.CheckAndRespond` state this.
- The log records the response source as "FAQ: <question>" or "AI-generated" (auto_response.py:108-119, `AutoResponse.ResponseChoice`).
- The per-platform cursor is passed to `get_mentions` as `since_id` (auto_response.py:68-69). What is stored back is the time the poll completed, not the id of a mention (auto_response.py:83).
- `check_due_posts` selects by status and schedule time alone and does not look at outstanding one-shot jobs (scheduler.py:73-82). `_publish_post` does not check the post's status (scheduler.py:97-117). A published post can therefore be published again by `publish_post`.
- `_publish_post` ignores the value `post` returns (scheduler.py:106-107). A post whose `post` call returns false is still marked "published" (`Scheduler.PublishStatus`).
- `search_leads` awaits the suggestions call before searching and has no handler around it (discovery.py:119-122). A failing suggestion call therefore propagates. The suggestions are not used afterwards (`Discovery.SearchLeads`).
- `search_leads` calls `search_leads_on_platform` without credentials (discovery.py:133-137), so no login happens before those searches (`Discovery.SearchLeadsOnPlatform`).
- `engage_with_lead` has the docstring "Engage with a lead (follow, like, comment)". Only "follow" reaches the adapter; every other action returns false (discovery.py:195-204, `Discovery.EngageWithLead`).
- `_calculate_keyword_score` counts an empty comma piece, as left by a trailing comma, as found, since `"" in query` holds (faq_matcher.py:22-25, `FaqMatcher.EmptyPiecesMatch`). The auto-responder's `_keyword_match` skips empty pieces (auto_response.py:149-152, `AutoResponse.OnlyEmptyPieces`).
