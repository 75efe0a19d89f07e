/**
 * The post scheduler: a table of timed jobs keyed by job id, a start/stop
 * flag, the periodic sweep that publishes due posts and the rule that
 * sets a post's status after a publish attempt.  The timer machinery that
 * fires jobs is outside the model; "now" is a parameter.
 */
module Scheduler {
  import opened Wrappers
  import opened Text
  import opened Models
  import opened Database
  import opened Platforms
  import opened Sequences

  datatype Trigger = Interval(seconds: nat) | RunAt(runDate: Timestamp)

  /** What a job calls when it fires. */
  datatype Action = RunSweep | PublishOne(postId: int)

  datatype Job = Job(id: string, action: Action, trigger: Trigger)

  /** The id of the recurring sweep job. */
  const CheckPostsId: string := "check_posts"

  /** The job id of a post's one-shot publish job. */
  function PublishJobId(postId: int): string {
    "publish_post_" + IntToString(postId)
  }

  /** Each post has its own publish job id, and none is the sweep's id. */
  lemma PublishJobIds(a: int, b: int)
    ensures PublishJobId(a) == PublishJobId(b) <==> a == b
    ensures PublishJobId(a) != CheckPostsId
  {
    var prefix := "publish_post_";
    assert PublishJobId(a)[..|prefix|] == prefix;
    assert PublishJobId(b)[..|prefix|] == prefix;
    if PublishJobId(a) == PublishJobId(b) {
      assert IntToString(a) == PublishJobId(a)[|prefix|..];
      assert IntToString(b) == PublishJobId(b)[|prefix|..];
      IntToStringInjective(a, b);
    }
    assert PublishJobId(a)[0] == 'p' != CheckPostsId[0];
  }

  /** The sweep's test on one listed post: it has a schedule time, and that time has come. */
  predicate DueAt(p: Post, now: Timestamp) {
    p.scheduledAt.Some? && p.scheduledAt.value <= now
  }

  /**
   * The status `_publish_post` leaves on a post: "published" when the
   * platform has an adapter and its `post` returns (whatever it returns),
   * "failed" when the platform is not supported or `post` raises.
   */
  function PublishStatus(classes: map<string, AdapterClass>, platform: string, browserOutcome: Call<bool>): (r: string)
    ensures r == "published" <==>
      Lookup(classes, platform).Some? && Capability(Lookup(classes, platform).value, true, browserOutcome).Returned?
    ensures r == "published" || r == "failed"
  {
    match Lookup(classes, platform)
    case None => "failed"
    case Some(c) => if Capability(c, true, browserOutcome).Returned? then "published" else "failed"
  }

  /** The activity entries `_publish_post` writes: one when an adapter was found, none otherwise. */
  function PublishLog(p: Post, classes: map<string, AdapterClass>, browserOutcome: Call<bool>): (r: seq<Activity>)
    ensures |r| == (if Lookup(classes, p.platform).Some? then 1 else 0)
    ensures r != [] ==> r[0].platform == Some(p.platform) && r[0].productId == None && r[0].details == ""
  {
    match Lookup(classes, p.platform)
    case None => []
    case Some(c) =>
      match Capability(c, true, browserOutcome)
      case Returned(_) => [Activity(None, "Published post " + IntToString(p.id), Some(p.platform), "")]
      case Raised(e) =>
        [Activity(None, "Failed to publish post " + IntToString(p.id) + ": " + e, Some(p.platform), "")]
  }

  /** The row of a post after a publish attempt: only its status changes. */
  function Published(p: Post, classes: map<string, AdapterClass>, browserOutcome: Call<bool>): Post {
    p.(status := PublishStatus(classes, p.platform, browserOutcome))
  }

  /** The posts `check_due_posts` attempts to publish: scheduled, with a schedule time that has come. */
  predicate SweepSelects(p: Post, now: Timestamp) {
    p.status == "scheduled" && DueAt(p, now)
  }

  /** The posts table after a sweep at `now`, with `outcomes` giving each post's browser outcome. */
  function Swept(
    table: map<int, Post>, now: Timestamp, classes: map<string, AdapterClass>,
    outcomes: int -> Call<bool>): (r: map<int, Post>)
    ensures r.Keys == table.Keys
  {
    map k | k in table ::
      if SweepSelects(table[k], now) then Published(table[k], classes, outcomes(k)) else table[k]
  }

  /** The activity entries of a sweep over `listing`, in list order. */
  function SweepLog(
    listing: seq<Post>, now: Timestamp, classes: map<string, AdapterClass>,
    outcomes: int -> Call<bool>): seq<Activity>
  {
    if listing == [] then []
    else
      var last := listing[|listing| - 1];
      SweepLog(listing[..|listing| - 1], now, classes, outcomes)
      + (if DueAt(last, now) then PublishLog(last, classes, outcomes(last.id)) else [])
  }

  /**
   * A sweep changes only statuses: a post it selects ends "published" or
   * "failed", every other post is left as it was.  A second sweep at the
   * same time therefore changes nothing.
   */
  lemma SweptShape(
    table: map<int, Post>, now: Timestamp, classes: map<string, AdapterClass>,
    outcomes: int -> Call<bool>)
    ensures forall k :: k in table && !SweepSelects(table[k], now) ==>
      Swept(table, now, classes, outcomes)[k] == table[k]
    ensures forall k :: k in table && SweepSelects(table[k], now) ==>
      && Swept(table, now, classes, outcomes)[k] == table[k].(status := Swept(table, now, classes, outcomes)[k].status)
      && Swept(table, now, classes, outcomes)[k].status in {"published", "failed"}
    ensures Swept(Swept(table, now, classes, outcomes), now, classes, outcomes)
         == Swept(table, now, classes, outcomes)
  {
    var once := Swept(table, now, classes, outcomes);
    forall k | k in once
      ensures !SweepSelects(once[k], now)
    {
      if SweepSelects(table[k], now) {
        assert once[k].status in {"published", "failed"};
      }
    }
  }

  /** `listing` is what `get_posts(status="scheduled")` returns: each scheduled row once. */
  predicate ListsScheduled(listing: seq<Post>, table: map<int, Post>) {
    && (forall p :: p in listing ==> p.id in table && table[p.id] == p && p.status == "scheduled")
    && (forall k :: k in table && table[k].status == "scheduled" ==> table[k] in listing)
    && (forall i, j :: 0 <= i < j < |listing| ==> listing[i].id != listing[j].id)
  }

  /** The ids of the listed posts the sweep has published so far. */
  function SweptIds(done: seq<Post>, now: Timestamp): set<int> {
    set p | p in done && DueAt(p, now) :: p.id
  }

  /** The table with the posts whose ids are in `ids` published. */
  function PartlySwept(
    table: map<int, Post>, ids: set<int>, classes: map<string, AdapterClass>,
    outcomes: int -> Call<bool>): map<int, Post>
  {
    map k | k in table :: if k in ids then Published(table[k], classes, outcomes(k)) else table[k]
  }

  /** Over the listing of the scheduled rows, the posts the loop publishes are the ones the sweep selects. */
  lemma SweptIdsOfListing(listing: seq<Post>, table: map<int, Post>, now: Timestamp)
    requires ListsScheduled(listing, table)
    requires forall k :: k in table ==> table[k].id == k
    ensures forall k :: k in table ==> (k in SweptIds(listing, now) <==> SweepSelects(table[k], now))
  {
    forall k | k in table
      ensures k in SweptIds(listing, now) <==> SweepSelects(table[k], now)
    {
      if SweepSelects(table[k], now) {
        assert table[k] in listing;
      }
      if k in SweptIds(listing, now) {
        var p :| p in listing && DueAt(p, now) && p.id == k;
        assert table[p.id] == p;
      }
    }
  }

  /** The log of a sweep over one more listed post. */
  lemma SweepLogStep(
    listing: seq<Post>, i: int, now: Timestamp, classes: map<string, AdapterClass>,
    outcomes: int -> Call<bool>)
    requires 0 <= i < |listing|
    ensures SweepLog(listing[..i + 1], now, classes, outcomes)
         == SweepLog(listing[..i], now, classes, outcomes)
            + (if DueAt(listing[i], now) then PublishLog(listing[i], classes, outcomes(listing[i].id)) else [])
  {
    assert listing[..i + 1][..i] == listing[..i];
  }

  /** Publishing exactly the selected posts of the table gives the swept table. */
  lemma SweptByListing(
    listing: seq<Post>, table: map<int, Post>, now: Timestamp, classes: map<string, AdapterClass>,
    outcomes: int -> Call<bool>)
    requires ListsScheduled(listing, table)
    requires forall k :: k in table ==> table[k].id == k
    ensures PartlySwept(table, SweptIds(listing, now), classes, outcomes) == Swept(table, now, classes, outcomes)
  {
    SweptIdsOfListing(listing, table, now);
  }

  /** A listed post is not among the ones swept before it, since listed ids are distinct. */
  lemma NotYetSwept(listing: seq<Post>, i: int, now: Timestamp)
    requires 0 <= i < |listing|
    requires forall a, b :: 0 <= a < b < |listing| ==> listing[a].id != listing[b].id
    ensures listing[i].id !in SweptIds(listing[..i], now)
  {
  }

  /** Publishing one more post extends the partly swept table by that row. */
  lemma PartlySweptStep(
    table: map<int, Post>, ids: set<int>, k: int, classes: map<string, AdapterClass>,
    outcomes: int -> Call<bool>)
    requires k in table
    ensures PartlySwept(table, ids + {k}, classes, outcomes)
         == PartlySwept(table, ids, classes, outcomes)[k := Published(table[k], classes, outcomes(k))]
  {
  }

  /** A post updated with the single argument `status=s` has that status and is otherwise unchanged. */
  lemma StatusUpdate(p: Post, s: string)
    ensures PostWithArgs(p, map[Status := Text(s)]) == p.(status := s)
  {
  }

  /** `update_post(session, post_id, status=s)`. */
  method SetStatus(store: Store, postId: int, s: string)
    requires store.Valid()
    modifies store
    ensures store.Valid()
    ensures postId !in old(store.posts) ==> store.posts == old(store.posts)
    ensures postId in old(store.posts) ==>
      store.posts == old(store.posts)[postId := old(store.posts)[postId].(status := s)]
    ensures store.activities == old(store.activities)
    ensures store.products == old(store.products) && store.faqs == old(store.faqs)
    ensures store.leads == old(store.leads) && store.engagement == old(store.engagement)
  {
    if postId in store.posts {
      StatusUpdate(store.posts[postId], s);
    }
    var _ := store.UpdatePost(postId, map[Status := Text(s)]);
  }

  class PostScheduler {
    /** Whether the underlying job scheduler is running. */
    var running: bool
    /** The flag the service exposes. */
    var isRunning: bool
    var jobs: map<string, Job>

    /** Every job is stored under its own id. */
    predicate Valid()
      reads this
    {
      forall id :: id in jobs ==> jobs[id].id == id
    }

    constructor ()
      ensures Valid() && !running && !isRunning && jobs == map[]
    {
      running, isRunning, jobs := false, false, map[];
    }

    /** `start`: when not yet running, runs and installs the 60-second sweep job (replacing any earlier one). */
    method Start()
      requires Valid()
      modifies this
      ensures Valid()
      ensures old(running) ==> running == old(running) && isRunning == old(isRunning) && jobs == old(jobs)
      ensures !old(running) ==>
        && running && isRunning
        && jobs == old(jobs)[CheckPostsId := Job(CheckPostsId, RunSweep, Interval(60))]
    {
      if !running {
        running := true;
        isRunning := true;
        jobs := jobs[CheckPostsId := Job(CheckPostsId, RunSweep, Interval(60))];
      }
    }

    /** `stop`: when running, shuts down; the job table is kept. */
    method Stop()
      modifies this
      ensures !running
      ensures old(running) ==> !isRunning
      ensures !old(running) ==> isRunning == old(isRunning)
      ensures jobs == old(jobs)
    {
      if running {
        running := false;
        isRunning := false;
      }
    }

    /** `schedule_post`: the post's publish job now runs at `scheduledAt`; every other job is untouched. */
    method SchedulePost(postId: int, scheduledAt: Timestamp)
      requires Valid()
      modifies this
      ensures Valid()
      ensures jobs == old(jobs)[PublishJobId(postId) := Job(PublishJobId(postId), PublishOne(postId), RunAt(scheduledAt))]
      ensures running == old(running) && isRunning == old(isRunning)
    {
      var id := PublishJobId(postId);
      if id in jobs {
        jobs := jobs - {id};
      }
      jobs := jobs[id := Job(id, PublishOne(postId), RunAt(scheduledAt))];
    }

    /** `cancel_scheduled_post`: removes the post's publish job; an absent job is silently ignored. */
    method CancelScheduledPost(postId: int)
      requires Valid()
      modifies this
      ensures Valid()
      ensures jobs == old(jobs) - {PublishJobId(postId)}
      ensures running == old(running) && isRunning == old(isRunning)
    {
      var id := PublishJobId(postId);
      if id in jobs {
        jobs := jobs - {id};
      }
    }

    /** `get_scheduled_jobs`, as a set. */
    function ScheduledJobs(): (r: set<Job>)
      requires Valid()
      reads this
      ensures forall j :: j in r <==> j.id in jobs && jobs[j.id] == j
    {
      set id | id in jobs :: jobs[id]
    }

    /**
     * `check_due_posts`: walks the listing of scheduled posts in order and
     * publishes each one whose schedule time has come.  The table ends as
     * `Swept` describes it, and the log grows by the entries of those
     * attempts in list order.
     */
    method CheckDuePosts(
      store: Store, registry: PlatformRegistry, listing: seq<Post>, now: Timestamp,
      outcomes: int -> Call<bool>)
      requires store.Valid() && ListsScheduled(listing, store.posts)
      modifies store
      ensures store.Valid()
      ensures store.posts == Swept(old(store.posts), now, registry.classes, outcomes)
      ensures store.activities == old(store.activities) + SweepLog(listing, now, registry.classes, outcomes)
      ensures store.products == old(store.products) && store.faqs == old(store.faqs)
      ensures store.leads == old(store.leads) && store.engagement == old(store.engagement)
    {
      ghost var table := store.posts;
      var i := 0;
      while i < |listing|
        invariant 0 <= i <= |listing|
        invariant store.Valid()
        invariant store.posts == PartlySwept(table, SweptIds(listing[..i], now), registry.classes, outcomes)
        invariant store.activities == old(store.activities) + SweepLog(listing[..i], now, registry.classes, outcomes)
        invariant store.products == old(store.products) && store.faqs == old(store.faqs)
        invariant store.leads == old(store.leads) && store.engagement == old(store.engagement)
      {
        SweepLogStep(listing, i, now, registry.classes, outcomes);
        SweepOne(store, registry, listing, i, now, outcomes, table);
        AppendAssoc(old(store.activities), SweepLog(listing[..i], now, registry.classes, outcomes),
                    if DueAt(listing[i], now) then PublishLog(listing[i], registry.classes, outcomes(listing[i].id)) else []);
        i := i + 1;
      }
      assert listing[..i] == listing;
      SweptByListing(listing, table, now, registry.classes, outcomes);
    }

    /** One turn of the sweep loop: the `i`-th listed post is published when its time has come. */
    method SweepOne(
      store: Store, registry: PlatformRegistry, listing: seq<Post>, i: int, now: Timestamp,
      outcomes: int -> Call<bool>, ghost table: map<int, Post>)
      requires store.Valid() && ListsScheduled(listing, table) && 0 <= i < |listing|
      requires store.posts == PartlySwept(table, SweptIds(listing[..i], now), registry.classes, outcomes)
      modifies store
      ensures store.Valid()
      ensures store.posts == PartlySwept(table, SweptIds(listing[..i + 1], now), registry.classes, outcomes)
      ensures store.activities == old(store.activities)
        + (if DueAt(listing[i], now) then PublishLog(listing[i], registry.classes, outcomes(listing[i].id)) else [])
      ensures store.products == old(store.products) && store.faqs == old(store.faqs)
      ensures store.leads == old(store.leads) && store.engagement == old(store.engagement)
    {
      var post := listing[i];
      assert listing[..i + 1] == listing[..i] + [post];
      if DueAt(post, now) {
        ghost var ids := SweptIds(listing[..i], now);
        NotYetSwept(listing, i, now);
        assert post in listing;
        assert post.id in table && table[post.id] == post;
        PartlySweptStep(table, ids, post.id, registry.classes, outcomes);
        PublishRecord(store, registry, post, outcomes(post.id));
        assert SweptIds(listing[..i + 1], now) == ids + {post.id};
      } else {
        assert SweptIds(listing[..i + 1], now) == SweptIds(listing[..i], now);
        assert old(store.activities) + [] == old(store.activities);
      }
    }

    /** `publish_post`: publishes the post with that id; an id that is not in the table changes nothing. */
    method PublishPost(store: Store, registry: PlatformRegistry, postId: int, browserOutcome: Call<bool>)
      requires store.Valid()
      modifies store
      ensures store.Valid()
      ensures postId !in old(store.posts) ==>
        store.posts == old(store.posts) && store.activities == old(store.activities)
      ensures postId in old(store.posts) ==>
        && store.posts == old(store.posts)[postId := Published(old(store.posts)[postId], registry.classes, browserOutcome)]
        && store.activities == old(store.activities) + PublishLog(old(store.posts)[postId], registry.classes, browserOutcome)
      ensures store.products == old(store.products) && store.faqs == old(store.faqs)
      ensures store.leads == old(store.leads) && store.engagement == old(store.engagement)
    {
      if postId !in store.posts {
        return;
      }
      PublishRecord(store, registry, store.posts[postId], browserOutcome);
    }

    /**
     * `_publish_post`: looks up the adapter, attempts the post and records
     * the outcome in the post's status and, when an adapter was found, in
     * the activity log.
     */
    method PublishRecord(store: Store, registry: PlatformRegistry, post: Post, browserOutcome: Call<bool>)
      requires store.Valid()
      modifies store
      ensures store.Valid()
      ensures post.id !in old(store.posts) ==> store.posts == old(store.posts)
      ensures post.id in old(store.posts) ==>
        store.posts == old(store.posts)[post.id :=
          old(store.posts)[post.id].(status := PublishStatus(registry.classes, post.platform, browserOutcome))]
      ensures store.activities == old(store.activities) + PublishLog(post, registry.classes, browserOutcome)
      ensures store.products == old(store.products) && store.faqs == old(store.faqs)
      ensures store.leads == old(store.leads) && store.engagement == old(store.engagement)
    {
      var adapter := registry.GetAdapter(post.platform, "", "");
      if adapter.Raised? {
        SetStatus(store, post.id, "failed");
        return;
      }
      var outcome := Capability(adapter.value.adapterClass, true, browserOutcome);
      if outcome.Returned? {
        SetStatus(store, post.id, "published");
        store.LogActivity("Published post " + IntToString(post.id), None, Some(post.platform), "");
      } else {
        SetStatus(store, post.id, "failed");
        store.LogActivity("Failed to publish post " + IntToString(post.id) + ": " + outcome.error,
                          None, Some(post.platform), "");
      }
    }
  }
}
