/**
 * The record types of the data store and their column defaults.  A `New*`
 * function gives the row as it is stored after insertion: a column the
 * caller leaves unset (`None` here) takes its declared default, a column the
 * caller sets keeps the given value.
 */
module Models {
  import opened Wrappers

  /** A point in time; the model's stand-in for `datetime`. */
  type Timestamp = int

  datatype Product = Product(
    id: int, name: string, description: Option<string>, brandVoice: string,
    targetAudience: Option<string>, createdAt: Timestamp, updatedAt: Timestamp)

  datatype Post = Post(
    id: int, productId: int, content: string, platform: string,
    scheduledAt: Option<Timestamp>, publishedAt: Option<Timestamp>,
    status: string, createdAt: Timestamp)

  datatype Faq = Faq(
    id: int, productId: int, question: string, answer: string,
    keywords: Option<string>, createdAt: Timestamp)

  datatype Lead = Lead(
    id: int, productId: int, platform: string, username: string,
    displayName: Option<string>, bio: Option<string>, followers: int,
    relevanceScore: real, tags: Option<string>, status: string, createdAt: Timestamp)

  datatype Campaign = Campaign(
    id: int, productId: int, name: string, description: Option<string>,
    status: string, startDate: Option<Timestamp>, endDate: Option<Timestamp>,
    createdAt: Timestamp)

  datatype EngagementItem = EngagementItem(
    id: int, productId: int, platform: string, mentionType: string,
    sourceUser: string, sourceContent: string, generatedResponse: Option<string>,
    responseSource: string, status: string, createdAt: Timestamp,
    sentAt: Option<Timestamp>)

  /** One row of the activity log (its timestamp column is left to the store). */
  datatype Activity = Activity(
    productId: Option<int>, action: string, platform: Option<string>, details: string)

  // The `New*` functions below are the insertion defaults of the columns
  // declared in models.py, as the `create_*` operations of database.py use
  // them.  They are data, not behaviour, so their contracts list the stored
  // fields one by one; the store's `Create*` methods state that exactly this
  // row is added.

  function NewProduct(
    id: int, name: string, description: Option<string>, brandVoice: Option<string>,
    targetAudience: Option<string>, now: Timestamp): (r: Product)
    ensures r.id == id && r.name == name && r.description == description
    ensures r.targetAudience == targetAudience
    ensures r.brandVoice == brandVoice.GetOr("friendly")
    ensures r.createdAt == now && r.updatedAt == now
  {
    Product(id, name, description, brandVoice.GetOr("friendly"), targetAudience, now, now)
  }

  function NewPost(
    id: int, productId: int, content: string, platform: Option<string>,
    scheduledAt: Option<Timestamp>, status: Option<string>, now: Timestamp): (r: Post)
    ensures r.id == id && r.productId == productId && r.content == content
    ensures r.platform == platform.GetOr("twitter")
    ensures r.status == status.GetOr("draft")
    ensures r.scheduledAt == scheduledAt && r.publishedAt == None
    ensures r.createdAt == now
  {
    Post(id, productId, content, platform.GetOr("twitter"), scheduledAt, None,
         status.GetOr("draft"), now)
  }

  function NewFaq(
    id: int, productId: int, question: string, answer: string,
    keywords: Option<string>, now: Timestamp): (r: Faq)
    ensures r.id == id && r.productId == productId
    ensures r.question == question && r.answer == answer && r.keywords == keywords
    ensures r.createdAt == now
  {
    Faq(id, productId, question, answer, keywords, now)
  }

  function NewLead(
    id: int, productId: int, platform: string, username: string,
    displayName: Option<string>, bio: Option<string>, followers: Option<int>,
    relevanceScore: Option<real>, tags: Option<string>, status: Option<string>,
    now: Timestamp): (r: Lead)
    ensures r.id == id && r.productId == productId && r.platform == platform
    ensures r.username == username && r.displayName == displayName
    ensures r.bio == bio && r.tags == tags
    ensures r.followers == followers.GetOr(0)
    ensures r.relevanceScore == relevanceScore.GetOr(0.0)
    ensures r.status == status.GetOr("new")
    ensures r.createdAt == now
  {
    Lead(id, productId, platform, username, displayName, bio, followers.GetOr(0),
         relevanceScore.GetOr(0.0), tags, status.GetOr("new"), now)
  }

  function NewCampaign(
    id: int, productId: int, name: string, description: Option<string>,
    status: Option<string>, startDate: Option<Timestamp>, endDate: Option<Timestamp>,
    now: Timestamp): (r: Campaign)
    ensures r.id == id && r.productId == productId && r.name == name
    ensures r.description == description
    ensures r.status == status.GetOr("active")
    ensures r.startDate == startDate && r.endDate == endDate
    ensures r.createdAt == now
  {
    Campaign(id, productId, name, description, status.GetOr("active"), startDate, endDate, now)
  }

  function NewEngagementItem(
    id: int, productId: int, platform: string, mentionType: string,
    sourceUser: string, sourceContent: string, now: Timestamp): (r: EngagementItem)
    ensures r.id == id && r.productId == productId && r.platform == platform
    ensures r.mentionType == mentionType && r.sourceUser == sourceUser
    ensures r.sourceContent == sourceContent
    ensures r.generatedResponse == None && r.sentAt == None
    ensures r.responseSource == "pending" && r.status == "pending"
    ensures r.createdAt == now
  {
    EngagementItem(id, productId, platform, mentionType, sourceUser, sourceContent,
                   None, "pending", "pending", now, None)
  }

  /** The records the test suite builds keep the values it gives them. */
  lemma ConstructedRecordsKeepValues()
    ensures NewFaq(1, 1, "How does it work?", "It works great!", Some("how, work"), 0).keywords
            == Some("how, work")
    ensures NewLead(1, 1, "twitter", "testuser", Some("Test User"), None, Some(1000),
                    Some(0.85), None, Some("new"), 0).relevanceScore == 0.85
    ensures NewLead(1, 1, "twitter", "testuser", Some("Test User"), None, Some(1000),
                    Some(0.85), None, Some("new"), 0).followers == 1000
    ensures NewPost(1, 1, "Test post content", Some("twitter"), None, Some("draft"), 0).status
            == "draft"
  {
  }
}
