/**
 * The data store: one table per record type, keyed by primary key, and
 * the record operations the rest of the system uses.  Partial updates take
 * their keyword arguments as a map from attribute name to value; a name
 * that is not an attribute of the record is ignored, as `hasattr` makes
 * the original ignore it.
 */
module Database {
  import opened Wrappers
  import opened Models

  /** A keyword-argument value, tagged with the column type it fits. */
  datatype Value =
    | Text(s: string)
    | MaybeText(o: Option<string>)
    | Number(n: int)
    | Score(x: real)
    | When(t: Option<Timestamp>)

  datatype Kind = TextKind | MaybeTextKind | NumberKind | ScoreKind | WhenKind

  function KindOf(v: Value): Kind {
    match v
    case Text(_) => TextKind
    case MaybeText(_) => MaybeTextKind
    case Number(_) => NumberKind
    case Score(_) => ScoreKind
    case When(_) => WhenKind
  }

  /**
   * A keyword-argument name: an attribute of one of the record types, or a
   * name that is no attribute of any record.
   */
  datatype Key =
    | ProductId | Content | Platform | ScheduledAt | PublishedAt | Status
    | Username | DisplayName | Bio | Followers | RelevanceScore | Tags
    | Name | Description | BrandVoice | TargetAudience
    | Id | CreatedAt | UpdatedAt
    | Other(name: string)

  /** The data columns of `posts` that an update may set, with their types. */
  const PostColumns: map<Key, Kind> := map[
    ProductId := NumberKind, Content := TextKind, Platform := TextKind,
    ScheduledAt := WhenKind, PublishedAt := WhenKind, Status := TextKind]

  /** The data columns of `leads` that an update may set, with their types. */
  const LeadColumns: map<Key, Kind> := map[
    ProductId := NumberKind, Platform := TextKind, Username := TextKind,
    DisplayName := MaybeTextKind, Bio := MaybeTextKind, Followers := NumberKind,
    RelevanceScore := ScoreKind, Tags := MaybeTextKind, Status := TextKind]

  /** The data columns of `products` that an update may set, with their types. */
  const ProductColumns: map<Key, Kind> := map[
    Name := TextKind, Description := MaybeTextKind, BrandVoice := TextKind,
    TargetAudience := MaybeTextKind]

  /** Attributes every record has but that updates here do not set: the primary key and the time stamps. */
  const Reserved: set<Key> := {Id, CreatedAt, UpdatedAt}

  /**
   * Keyword arguments the model covers: none is reserved, and each one that
   * names a column carries a value of that column's type.
   */
  predicate ArgsFit(columns: map<Key, Kind>, args: map<Key, Value>) {
    forall k :: k in args ==> k !in Reserved && (k in columns ==> KindOf(args[k]) == columns[k])
  }

  /** The arguments that name a column; the others are ignored. */
  function Known(columns: map<Key, Kind>, args: map<Key, Value>): map<Key, Value> {
    map k | k in args && k in columns :: args[k]
  }

  // The value an update gives a column: the argument when one of the
  // column's type is present, otherwise the current value `d`.

  function TextArg(args: map<Key, Value>, k: Key, d: string): string {
    if k in args && args[k].Text? then args[k].s else d
  }

  function MaybeTextArg(args: map<Key, Value>, k: Key, d: Option<string>): Option<string> {
    if k in args && args[k].MaybeText? then args[k].o else d
  }

  function NumberArg(args: map<Key, Value>, k: Key, d: int): int {
    if k in args && args[k].Number? then args[k].n else d
  }

  function ScoreArg(args: map<Key, Value>, k: Key, d: real): real {
    if k in args && args[k].Score? then args[k].x else d
  }

  function WhenArg(args: map<Key, Value>, k: Key, d: Option<Timestamp>): Option<Timestamp> {
    if k in args && args[k].When? then args[k].t else d
  }

  /** Merged arguments fit the columns when both halves do. */
  lemma ArgsFitMerge(columns: map<Key, Kind>, a: map<Key, Value>, b: map<Key, Value>)
    requires ArgsFit(columns, a) && ArgsFit(columns, b)
    ensures ArgsFit(columns, a + b)
  {
  }

  // Reading a column from `b` over the result of reading it from `a` is
  // reading it from the merged `a + b`, when `b` has the column's type.

  lemma TextArgMerge(a: map<Key, Value>, b: map<Key, Value>, k: Key, d: string)
    requires k in b ==> b[k].Text?
    ensures TextArg(b, k, TextArg(a, k, d)) == TextArg(a + b, k, d)
  {
  }

  lemma MaybeTextArgMerge(a: map<Key, Value>, b: map<Key, Value>, k: Key, d: Option<string>)
    requires k in b ==> b[k].MaybeText?
    ensures MaybeTextArg(b, k, MaybeTextArg(a, k, d)) == MaybeTextArg(a + b, k, d)
  {
  }

  lemma NumberArgMerge(a: map<Key, Value>, b: map<Key, Value>, k: Key, d: int)
    requires k in b ==> b[k].Number?
    ensures NumberArg(b, k, NumberArg(a, k, d)) == NumberArg(a + b, k, d)
  {
  }

  lemma ScoreArgMerge(a: map<Key, Value>, b: map<Key, Value>, k: Key, d: real)
    requires k in b ==> b[k].Score?
    ensures ScoreArg(b, k, ScoreArg(a, k, d)) == ScoreArg(a + b, k, d)
  {
  }

  lemma WhenArgMerge(a: map<Key, Value>, b: map<Key, Value>, k: Key, d: Option<Timestamp>)
    requires k in b ==> b[k].When?
    ensures WhenArg(b, k, WhenArg(a, k, d)) == WhenArg(a + b, k, d)
  {
  }

  // ---------------------------------------------------------------- posts

  /**
   * `setattr(post, key, value)` guarded by `hasattr(post, key)`: a column
   * takes the value, any other key leaves the post as it is.  (A value of
   * the wrong type, which `ArgsFit` excludes, is ignored too.)
   */
  function SetPostAttr(p: Post, key: Key, v: Value): Post {
    match key
    case ProductId => if v.Number? then p.(productId := v.n) else p
    case Content => if v.Text? then p.(content := v.s) else p
    case Platform => if v.Text? then p.(platform := v.s) else p
    case ScheduledAt => if v.When? then p.(scheduledAt := v.t) else p
    case PublishedAt => if v.When? then p.(publishedAt := v.t) else p
    case Status => if v.Text? then p.(status := v.s) else p
    case _ => p
  }

  /** The post after an update with `args`: each column named in `args` takes its value, the rest are kept. */
  function PostWithArgs(p: Post, args: map<Key, Value>): Post {
    p.(productId := NumberArg(args, ProductId, p.productId),
       content := TextArg(args, Content, p.content),
       platform := TextArg(args, Platform, p.platform),
       scheduledAt := WhenArg(args, ScheduledAt, p.scheduledAt),
       publishedAt := WhenArg(args, PublishedAt, p.publishedAt),
       status := TextArg(args, Status, p.status))
  }

  /** Setting one argument and then the rest is the same as setting them all. */
  lemma PostSetThenRest(p: Post, args: map<Key, Value>, key: Key)
    requires key in args
    ensures PostWithArgs(SetPostAttr(p, key, args[key]), args - {key}) == PostWithArgs(p, args)
  {
  }

  /**
   * An update changes neither the primary key nor the creation time, ignores
   * every argument that names no column, and with no arguments changes nothing.
   */
  lemma PostUpdateShape(p: Post, args: map<Key, Value>)
    ensures PostWithArgs(p, args).id == p.id && PostWithArgs(p, args).createdAt == p.createdAt
    ensures PostWithArgs(p, args) == PostWithArgs(p, Known(PostColumns, args))
    ensures PostWithArgs(p, map[]) == p
    ensures forall k, v :: k !in PostColumns ==> SetPostAttr(p, k, v) == p
  {
  }

  /** Two updates in a row are one update whose arguments are merged, the later ones winning. */
  lemma PostUpdatesMerge(p: Post, a: map<Key, Value>, b: map<Key, Value>)
    requires ArgsFit(PostColumns, b)
    ensures PostWithArgs(PostWithArgs(p, a), b) == PostWithArgs(p, a + b)
  {
    NumberArgMerge(a, b, ProductId, p.productId);
    TextArgMerge(a, b, Content, p.content);
    TextArgMerge(a, b, Platform, p.platform);
    WhenArgMerge(a, b, ScheduledAt, p.scheduledAt);
    WhenArgMerge(a, b, PublishedAt, p.publishedAt);
    TextArgMerge(a, b, Status, p.status);
  }

  // ---------------------------------------------------------------- leads

  /** `setattr(lead, key, value)` guarded by `hasattr(lead, key)`. */
  function SetLeadAttr(l: Lead, key: Key, v: Value): Lead {
    match key
    case ProductId => if v.Number? then l.(productId := v.n) else l
    case Platform => if v.Text? then l.(platform := v.s) else l
    case Username => if v.Text? then l.(username := v.s) else l
    case DisplayName => if v.MaybeText? then l.(displayName := v.o) else l
    case Bio => if v.MaybeText? then l.(bio := v.o) else l
    case Followers => if v.Number? then l.(followers := v.n) else l
    case RelevanceScore => if v.Score? then l.(relevanceScore := v.x) else l
    case Tags => if v.MaybeText? then l.(tags := v.o) else l
    case Status => if v.Text? then l.(status := v.s) else l
    case _ => l
  }

  /** The lead after an update with `args`. */
  function LeadWithArgs(l: Lead, args: map<Key, Value>): Lead {
    l.(productId := NumberArg(args, ProductId, l.productId),
       platform := TextArg(args, Platform, l.platform),
       username := TextArg(args, Username, l.username),
       displayName := MaybeTextArg(args, DisplayName, l.displayName),
       bio := MaybeTextArg(args, Bio, l.bio),
       followers := NumberArg(args, Followers, l.followers),
       relevanceScore := ScoreArg(args, RelevanceScore, l.relevanceScore),
       tags := MaybeTextArg(args, Tags, l.tags),
       status := TextArg(args, Status, l.status))
  }

  lemma LeadSetThenRest(l: Lead, args: map<Key, Value>, key: Key)
    requires key in args
    ensures LeadWithArgs(SetLeadAttr(l, key, args[key]), args - {key}) == LeadWithArgs(l, args)
  {
  }

  lemma LeadUpdateShape(l: Lead, args: map<Key, Value>)
    ensures LeadWithArgs(l, args).id == l.id && LeadWithArgs(l, args).createdAt == l.createdAt
    ensures LeadWithArgs(l, args) == LeadWithArgs(l, Known(LeadColumns, args))
    ensures LeadWithArgs(l, map[]) == l
    ensures forall k, v :: k !in LeadColumns ==> SetLeadAttr(l, k, v) == l
  {
  }

  lemma LeadUpdatesMerge(l: Lead, a: map<Key, Value>, b: map<Key, Value>)
    requires ArgsFit(LeadColumns, b)
    ensures LeadWithArgs(LeadWithArgs(l, a), b) == LeadWithArgs(l, a + b)
  {
    NumberArgMerge(a, b, ProductId, l.productId);
    TextArgMerge(a, b, Platform, l.platform);
    TextArgMerge(a, b, Username, l.username);
    MaybeTextArgMerge(a, b, DisplayName, l.displayName);
    MaybeTextArgMerge(a, b, Bio, l.bio);
    NumberArgMerge(a, b, Followers, l.followers);
    ScoreArgMerge(a, b, RelevanceScore, l.relevanceScore);
    MaybeTextArgMerge(a, b, Tags, l.tags);
    TextArgMerge(a, b, Status, l.status);
  }

  // ------------------------------------------------------------- products

  /** `setattr(product, key, value)` guarded by `hasattr(product, key)`. */
  function SetProductAttr(p: Product, key: Key, v: Value): Product {
    match key
    case Name => if v.Text? then p.(name := v.s) else p
    case Description => if v.MaybeText? then p.(description := v.o) else p
    case BrandVoice => if v.Text? then p.(brandVoice := v.s) else p
    case TargetAudience => if v.MaybeText? then p.(targetAudience := v.o) else p
    case _ => p
  }

  /** The product columns after an update with `args`, before `updated_at` is touched. */
  function ProductWithArgs(p: Product, args: map<Key, Value>): Product {
    p.(name := TextArg(args, Name, p.name),
       description := MaybeTextArg(args, Description, p.description),
       brandVoice := TextArg(args, BrandVoice, p.brandVoice),
       targetAudience := MaybeTextArg(args, TargetAudience, p.targetAudience))
  }

  /**
   * The stored product after an update at time `now`: `updated_at` moves to
   * `now` when a column value actually changes (the column's `onupdate`),
   * and otherwise the row is left as it was.
   */
  function ProductUpdated(p: Product, args: map<Key, Value>, now: Timestamp): Product {
    var q := ProductWithArgs(p, args);
    if q == p then p else q.(updatedAt := now)
  }

  lemma ProductSetThenRest(p: Product, args: map<Key, Value>, key: Key)
    requires key in args
    ensures ProductWithArgs(SetProductAttr(p, key, args[key]), args - {key}) == ProductWithArgs(p, args)
  {
  }

  lemma ProductUpdateShape(p: Product, args: map<Key, Value>, now: Timestamp)
    ensures ProductWithArgs(p, map[]) == p
    ensures forall k, v :: k !in ProductColumns ==> SetProductAttr(p, k, v) == p
    ensures ProductUpdated(p, args, now).id == p.id
    ensures ProductUpdated(p, args, now).createdAt == p.createdAt
    ensures ProductUpdated(p, args, now) == ProductUpdated(p, Known(ProductColumns, args), now)
    ensures ProductUpdated(p, map[], now) == p
    ensures ProductUpdated(p, args, now) != p ==> ProductUpdated(p, args, now).updatedAt == now
  {
    assert ProductWithArgs(p, args) == ProductWithArgs(p, Known(ProductColumns, args));
  }

  /** The `for key, value in kwargs.items()` loop of `update_post`, on one record. */
  method ApplyPostArgs(p: Post, args: map<Key, Value>) returns (r: Post)
    ensures r == PostWithArgs(p, args)
  {
    r := p;
    var rest := args;
    while rest != map[]
      invariant PostWithArgs(r, rest) == PostWithArgs(p, args)
      decreases |rest|
    {
      var key :| key in rest;
      PostSetThenRest(r, rest, key);
      r := SetPostAttr(r, key, rest[key]);
      rest := rest - {key};
    }
    PostUpdateShape(r, map[]);
  }

  /** The `for key, value in kwargs.items()` loop of `update_lead`, on one record. */
  method ApplyLeadArgs(l: Lead, args: map<Key, Value>) returns (r: Lead)
    ensures r == LeadWithArgs(l, args)
  {
    r := l;
    var rest := args;
    while rest != map[]
      invariant LeadWithArgs(r, rest) == LeadWithArgs(l, args)
      decreases |rest|
    {
      var key :| key in rest;
      LeadSetThenRest(r, rest, key);
      r := SetLeadAttr(r, key, rest[key]);
      rest := rest - {key};
    }
    LeadUpdateShape(r, map[]);
  }

  /** The `for key, value in kwargs.items()` loop of `update_product`, on one record. */
  method ApplyProductArgs(p: Product, args: map<Key, Value>) returns (r: Product)
    ensures r == ProductWithArgs(p, args)
  {
    r := p;
    var rest := args;
    while rest != map[]
      invariant ProductWithArgs(r, rest) == ProductWithArgs(p, args)
      decreases |rest|
    {
      var key :| key in rest;
      ProductSetThenRest(r, rest, key);
      r := SetProductAttr(r, key, rest[key]);
      rest := rest - {key};
    }
    ProductUpdateShape(r, map[], 0);
  }

  // ---------------------------------------------------------- engagement

  /** Python truthiness of an optional string argument: present and non-empty. */
  predicate Truthy(o: Option<string>) {
    o.Some? && o.value != ""
  }

  /** Python truthiness of an optional id argument: present and non-zero. */
  predicate TruthyId(o: Option<int>) {
    o.Some? && o.value != 0
  }

  /**
   * `update_engagement_item` on an existing item: the response, its source
   * and the status are overwritten only by truthy arguments, and `sent_at`
   * is set to `now` exactly when the status is set to "sent".
   */
  function EngagementUpdated(
    item: EngagementItem, response: Option<string>, source: Option<string>,
    status: Option<string>, now: Timestamp): (r: EngagementItem)
    ensures r.id == item.id && r.productId == item.productId && r.platform == item.platform
    ensures r.sourceUser == item.sourceUser && r.sourceContent == item.sourceContent
    ensures r.mentionType == item.mentionType && r.createdAt == item.createdAt
    ensures r.generatedResponse == (if Truthy(response) then response else item.generatedResponse)
    ensures r.responseSource == (if Truthy(source) then source.value else item.responseSource)
    ensures r.status == (if Truthy(status) then status.value else item.status)
    ensures r.sentAt == (if Truthy(status) && status.value == "sent" then Some(now) else item.sentAt)
  {
    var a := if Truthy(response) then item.(generatedResponse := response) else item;
    var b := if Truthy(source) then a.(responseSource := source.value) else a;
    if Truthy(status) then
      var c := b.(status := status.value);
      if status.value == "sent" then c.(sentAt := Some(now)) else c
    else b
  }

  // --------------------------------------------------------------- filters

  /** `get_posts`: a truthy product id and a truthy status each restrict the rows. */
  predicate PostSelected(p: Post, productId: Option<int>, status: Option<string>) {
    && (TruthyId(productId) ==> p.productId == productId.value)
    && (Truthy(status) ==> p.status == status.value)
  }

  /** `get_leads`: a truthy product id and a truthy status each restrict the rows. */
  predicate LeadSelected(l: Lead, productId: Option<int>, status: Option<string>) {
    && (TruthyId(productId) ==> l.productId == productId.value)
    && (Truthy(status) ==> l.status == status.value)
  }

  /** `get_engagement_queue`: a truthy product id and a truthy status each restrict the rows. */
  predicate EngagementSelected(e: EngagementItem, productId: Option<int>, status: Option<string>) {
    && (TruthyId(productId) ==> e.productId == productId.value)
    && (Truthy(status) ==> e.status == status.value)
  }

  /** A falsy filter argument selects every row; two truthy ones select the rows each selects. */
  lemma FiltersCombine(p: Post, productId: Option<int>, status: Option<string>)
    ensures !TruthyId(productId) && !Truthy(status) ==> PostSelected(p, productId, status)
    ensures PostSelected(p, productId, status) <==>
      PostSelected(p, productId, None) && PostSelected(p, None, status)
    ensures PostSelected(p, Some(0), status) == PostSelected(p, None, status)
    ensures PostSelected(p, productId, Some("")) == PostSelected(p, productId, None)
  {
  }

  /**
   * `faqs` is a listing of what `get_faqs(product_id)` returns: the
   * product's FAQ rows, in the order the query yields them.
   */
  predicate ListsFaqsOf(faqs: seq<Faq>, table: map<int, Faq>, productId: int) {
    && (forall f :: f in faqs ==> f.id in table && table[f.id] == f && f.productId == productId)
    && (forall k :: k in table && table[k].productId == productId ==> table[k] in faqs)
  }

  /** The tables of the store. */
  class Store {
    var products: map<int, Product>
    var posts: map<int, Post>
    var faqs: map<int, Faq>
    var leads: map<int, Lead>
    var engagement: map<int, EngagementItem>
    var activities: seq<Activity>

    /** Every row is stored under its own primary key. */
    predicate Valid()
      reads this
    {
      && (forall k :: k in products ==> products[k].id == k)
      && (forall k :: k in posts ==> posts[k].id == k)
      && (forall k :: k in faqs ==> faqs[k].id == k)
      && (forall k :: k in leads ==> leads[k].id == k)
      && (forall k :: k in engagement ==> engagement[k].id == k)
    }

    /** An empty store, as after `init_db`. */
    constructor ()
      ensures Valid()
      ensures products == map[] && posts == map[] && faqs == map[] && leads == map[]
      ensures engagement == map[] && activities == []
    {
      products, posts, faqs, leads, engagement, activities := map[], map[], map[], map[], map[], [];
    }

    // ----------------------------------------------------------- creation
    // The primary key the database assigns is a parameter: any key not yet in use.

    method CreateProduct(
      id: int, name: string, description: string, brandVoice: string, targetAudience: string,
      now: Timestamp) returns (r: Product)
      requires Valid() && id !in products
      modifies this
      ensures Valid()
      ensures r == NewProduct(id, name, Some(description), Some(brandVoice),
                              Some(targetAudience), now)
      ensures products == old(products)[r.id := r]
      ensures posts == old(posts) && faqs == old(faqs) && leads == old(leads)
      ensures engagement == old(engagement) && activities == old(activities)
    {
      r := NewProduct(id, name, Some(description), Some(brandVoice), Some(targetAudience), now);
      products := products[id := r];
    }

    method CreatePost(
      id: int, productId: int, content: string, platform: string, scheduledAt: Option<Timestamp>,
      status: string, now: Timestamp) returns (r: Post)
      requires Valid() && id !in posts
      modifies this
      ensures Valid()
      ensures r == NewPost(id, productId, content, Some(platform), scheduledAt,
                           Some(status), now)
      ensures posts == old(posts)[r.id := r]
      ensures products == old(products) && faqs == old(faqs) && leads == old(leads)
      ensures engagement == old(engagement) && activities == old(activities)
    {
      r := NewPost(id, productId, content, Some(platform), scheduledAt, Some(status), now);
      posts := posts[id := r];
    }

    method CreateFaq(
      id: int, productId: int, question: string, answer: string, keywords: string,
      now: Timestamp) returns (r: Faq)
      requires Valid() && id !in faqs
      modifies this
      ensures Valid()
      ensures r == NewFaq(id, productId, question, answer, Some(keywords), now)
      ensures faqs == old(faqs)[r.id := r]
      ensures products == old(products) && posts == old(posts) && leads == old(leads)
      ensures engagement == old(engagement) && activities == old(activities)
    {
      r := NewFaq(id, productId, question, answer, Some(keywords), now);
      faqs := faqs[id := r];
    }

    method CreateLead(
      id: int, productId: int, platform: string, username: string, displayName: string,
      bio: string, followers: int, relevanceScore: real, tags: string,
      now: Timestamp) returns (r: Lead)
      requires Valid() && id !in leads
      modifies this
      ensures Valid()
      ensures r == NewLead(id, productId, platform, username, Some(displayName),
                           Some(bio), Some(followers), Some(relevanceScore), Some(tags), None, now)
      ensures leads == old(leads)[r.id := r]
      ensures products == old(products) && posts == old(posts) && faqs == old(faqs)
      ensures engagement == old(engagement) && activities == old(activities)
    {
      r := NewLead(id, productId, platform, username, Some(displayName), Some(bio),
                   Some(followers), Some(relevanceScore), Some(tags), None, now);
      leads := leads[id := r];
    }

    method AddToEngagementQueue(
      id: int, productId: int, platform: string, mentionType: string, sourceUser: string,
      sourceContent: string, now: Timestamp) returns (r: EngagementItem)
      requires Valid() && id !in engagement
      modifies this
      ensures Valid()
      ensures r == NewEngagementItem(id, productId, platform, mentionType,
                                     sourceUser, sourceContent, now)
      ensures engagement == old(engagement)[r.id := r]
      ensures products == old(products) && posts == old(posts) && faqs == old(faqs)
      ensures leads == old(leads) && activities == old(activities)
    {
      r := NewEngagementItem(id, productId, platform, mentionType, sourceUser, sourceContent, now);
      engagement := engagement[id := r];
    }

    /** `log_activity`: appends one entry to the activity log and touches no other table. */
    method LogActivity(action: string, productId: Option<int>, platform: Option<string>, details: string)
      modifies this
      ensures activities == old(activities) + [Activity(productId, action, platform, details)]
      ensures products == old(products) && posts == old(posts) && faqs == old(faqs)
      ensures leads == old(leads) && engagement == old(engagement)
    {
      activities := activities + [Activity(productId, action, platform, details)];
    }

    // ------------------------------------------------------------ queries

    /** `get_product`. */
    function GetProduct(productId: int): (r: Option<Product>)
      reads this
      ensures r.Some? <==> productId in products
      ensures r.Some? ==> r.value == products[productId]
    {
      if productId in products then Some(products[productId]) else None
    }

    /** `get_posts` as a set of rows: the rows its filters select (the SQL order is left out). */
    function GetPosts(productId: Option<int>, status: Option<string>): (r: set<Post>)
      requires Valid()
      reads this
      ensures forall p :: p in r <==> p.id in posts && posts[p.id] == p && PostSelected(p, productId, status)
    {
      set k | k in posts && PostSelected(posts[k], productId, status) :: posts[k]
    }

    /** `get_leads` as a set of rows. */
    function GetLeads(productId: Option<int>, status: Option<string>): (r: set<Lead>)
      requires Valid()
      reads this
      ensures forall l :: l in r <==> l.id in leads && leads[l.id] == l && LeadSelected(l, productId, status)
    {
      set k | k in leads && LeadSelected(leads[k], productId, status) :: leads[k]
    }

    /** `get_engagement_queue` as a set of rows. */
    function GetEngagementQueue(productId: Option<int>, status: Option<string>): (r: set<EngagementItem>)
      requires Valid()
      reads this
      ensures forall e :: e in r <==>
        e.id in engagement && engagement[e.id] == e && EngagementSelected(e, productId, status)
    {
      set k | k in engagement && EngagementSelected(engagement[k], productId, status) :: engagement[k]
    }

    /** `get_faqs`: the FAQs of one product; here the product id always filters, even when it is 0. */
    function GetFaqs(productId: int): (r: set<Faq>)
      requires Valid()
      reads this
      ensures forall f :: f in r <==> f.id in faqs && faqs[f.id] == f && f.productId == productId
    {
      set k | k in faqs && faqs[k].productId == productId :: faqs[k]
    }

    /** With no truthy filter argument, `get_posts` returns every post. */
    lemma GetPostsUnfiltered(productId: Option<int>, status: Option<string>)
      requires Valid()
      requires !TruthyId(productId) && !Truthy(status)
      ensures forall k :: k in posts ==> posts[k] in GetPosts(productId, status)
    {
    }

    // ------------------------------------------------------------ updates

    /** `update_post`: sets each argument that names a column, one `setattr` at a time. */
    method UpdatePost(postId: int, args: map<Key, Value>) returns (r: Option<Post>)
      requires Valid() && ArgsFit(PostColumns, args)
      modifies this
      ensures Valid()
      ensures postId !in old(posts) ==> r == None && posts == old(posts)
      ensures postId in old(posts) ==>
        r == Some(PostWithArgs(old(posts)[postId], args)) && posts == old(posts)[postId := r.value]
      ensures products == old(products) && faqs == old(faqs) && leads == old(leads)
      ensures engagement == old(engagement) && activities == old(activities)
    {
      if postId !in posts {
        return None;
      }
      var post := ApplyPostArgs(posts[postId], args);
      PostUpdateShape(posts[postId], args);
      posts := posts[postId := post];
      r := Some(post);
    }

    /** `update_lead`: sets each argument that names a column, one `setattr` at a time. */
    method UpdateLead(leadId: int, args: map<Key, Value>) returns (r: Option<Lead>)
      requires Valid() && ArgsFit(LeadColumns, args)
      modifies this
      ensures Valid()
      ensures leadId !in old(leads) ==> r == None && leads == old(leads)
      ensures leadId in old(leads) ==>
        r == Some(LeadWithArgs(old(leads)[leadId], args)) && leads == old(leads)[leadId := r.value]
      ensures products == old(products) && posts == old(posts) && faqs == old(faqs)
      ensures engagement == old(engagement) && activities == old(activities)
    {
      if leadId !in leads {
        return None;
      }
      var lead := ApplyLeadArgs(leads[leadId], args);
      LeadUpdateShape(leads[leadId], args);
      leads := leads[leadId := lead];
      r := Some(lead);
    }

    /** `update_product`: sets each argument that names a column, then the row's `onupdate` stamp. */
    method UpdateProduct(productId: int, args: map<Key, Value>, now: Timestamp) returns (r: Option<Product>)
      requires Valid() && ArgsFit(ProductColumns, args)
      modifies this
      ensures Valid()
      ensures productId !in old(products) ==> r == None && products == old(products)
      ensures productId in old(products) ==>
        && r == Some(ProductUpdated(old(products)[productId], args, now))
        && products == old(products)[productId := r.value]
      ensures posts == old(posts) && faqs == old(faqs) && leads == old(leads)
      ensures engagement == old(engagement) && activities == old(activities)
    {
      if productId !in products {
        return None;
      }
      var original := products[productId];
      var product := ApplyProductArgs(original, args);
      if product != original {
        product := product.(updatedAt := now);
      }
      products := products[productId := product];
      r := Some(product);
    }

    /** `update_engagement_item`. */
    method UpdateEngagementItem(
      itemId: int, response: Option<string>, source: Option<string>, status: Option<string>,
      now: Timestamp) returns (r: Option<EngagementItem>)
      requires Valid()
      modifies this
      ensures Valid()
      ensures itemId !in old(engagement) ==> r == None && engagement == old(engagement)
      ensures itemId in old(engagement) ==>
        && r == Some(EngagementUpdated(old(engagement)[itemId], response, source, status, now))
        && engagement == old(engagement)[itemId := r.value]
      ensures products == old(products) && posts == old(posts) && faqs == old(faqs)
      ensures leads == old(leads) && activities == old(activities)
    {
      if itemId !in engagement {
        return None;
      }
      var item := engagement[itemId];
      if Truthy(response) {
        item := item.(generatedResponse := response);
      }
      if Truthy(source) {
        item := item.(responseSource := source.value);
      }
      if Truthy(status) {
        item := item.(status := status.value);
        if status.value == "sent" {
          item := item.(sentAt := Some(now));
        }
      }
      engagement := engagement[itemId := item];
      r := Some(item);
    }

    // ------------------------------------------------------------ deletes

    /** `delete_post`: true exactly when the post existed, which is then gone. */
    method DeletePost(postId: int) returns (existed: bool)
      requires Valid()
      modifies this
      ensures Valid()
      ensures existed <==> postId in old(posts)
      ensures posts == old(posts) - {postId}
      ensures products == old(products) && faqs == old(faqs) && leads == old(leads)
      ensures engagement == old(engagement) && activities == old(activities)
    {
      existed := postId in posts;
      if existed {
        posts := posts - {postId};
      }
    }

    /** `delete_faq`: true exactly when the FAQ existed, which is then gone. */
    method DeleteFaq(faqId: int) returns (existed: bool)
      requires Valid()
      modifies this
      ensures Valid()
      ensures existed <==> faqId in old(faqs)
      ensures faqs == old(faqs) - {faqId}
      ensures products == old(products) && posts == old(posts) && leads == old(leads)
      ensures engagement == old(engagement) && activities == old(activities)
    {
      existed := faqId in faqs;
      if existed {
        faqs := faqs - {faqId};
      }
    }

    /**
     * `delete_product`: true exactly when the product existed; its posts,
     * FAQs and leads go with it (the relationships cascade on delete).
     */
    method DeleteProduct(productId: int) returns (existed: bool)
      requires Valid()
      modifies this
      ensures Valid()
      ensures existed <==> productId in old(products)
      ensures products == old(products) - {productId}
      ensures existed ==>
        && posts == (map k | k in old(posts) && old(posts)[k].productId != productId :: old(posts)[k])
        && faqs == (map k | k in old(faqs) && old(faqs)[k].productId != productId :: old(faqs)[k])
        && leads == (map k | k in old(leads) && old(leads)[k].productId != productId :: old(leads)[k])
      ensures !existed ==> posts == old(posts) && faqs == old(faqs) && leads == old(leads)
      ensures engagement == old(engagement) && activities == old(activities)
    {
      existed := productId in products;
      if existed {
        products := products - {productId};
        posts := map k | k in posts && posts[k].productId != productId :: posts[k];
        faqs := map k | k in faqs && faqs[k].productId != productId :: faqs[k];
        leads := map k | k in leads && leads[k].productId != productId :: leads[k];
      }
    }
  }
}
