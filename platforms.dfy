/**
 * The platform layer: the registry that maps a platform name to an adapter
 * class, the browser-session state every adapter carries, and the LinkedIn
 * stub adapter.  The Playwright objects (browser, context, page) are kept
 * only by identity; what the browser automation of the Twitter, Instagram
 * and Facebook adapters does is outside the model.
 */
module Platforms {
  import opened Wrappers
  import opened Text
  import opened Sequences

  /** A result dictionary as adapters return it from `search` and `get_mentions`. */
  type Fields = map<string, string>

  /** `d.get(key, default)`. */
  function Get(d: Fields, key: string, default: string): (r: string)
    ensures key in d ==> r == d[key]
    ensures key !in d ==> r == default
  {
    if key in d then d[key] else default
  }

  /** The adapter classes of the repository. */
  datatype AdapterClass =
    | BaseAdapter       // `PlatformAdapter` itself, which is instantiable
    | TwitterAdapter
    | InstagramAdapter
    | FacebookAdapter
    | LinkedInAdapter

  /** `cls.__name__`. */
  function ClassName(c: AdapterClass): string {
    match c
    case BaseAdapter => "PlatformAdapter"
    case TwitterAdapter => "TwitterAdapter"
    case InstagramAdapter => "InstagramAdapter"
    case FacebookAdapter => "FacebookAdapter"
    case LinkedInAdapter => "LinkedInAdapter"
  }

  const CookiesSuffix: string := "_cookies.json"

  /** The file name `_get_cookies_path` gives an adapter: its class name and a fixed suffix. */
  function CookiesFileName(c: AdapterClass): string {
    ClassName(c) + CookiesSuffix
  }

  /** Class names are distinct. */
  lemma ClassNamesDistinct(a: AdapterClass, b: AdapterClass)
    requires a != b
    ensures ClassName(a) != ClassName(b)
  {
    var x, y := ClassName(a), ClassName(b);
    if |x| == |y| {
      // The two names of equal length differ in their first letter.
      assert x[0] != y[0];
    }
  }

  lemma SameSuffixCancels(x: string, y: string, s: string)
    requires x + s == y + s
    ensures x == y
  {
    assert |x| == |y|;
    assert x == (x + s)[..|x|];
    assert y == (y + s)[..|y|];
  }

  /** Every adapter class has a cookie file of its own, named after the class. */
  lemma CookiesFileNamesDistinct(a: AdapterClass, b: AdapterClass)
    ensures CookiesFileName(a) == CookiesFileName(b) <==> a == b
    ensures CookiesFileName(a)[..|ClassName(a)|] == ClassName(a)
    ensures CookiesFileName(a)[|ClassName(a)|..] == "_cookies.json"
  {
    if a != b {
      ClassNamesDistinct(a, b);
      if CookiesFileName(a) == CookiesFileName(b) {
        SameSuffixCancels(ClassName(a), ClassName(b), CookiesSuffix);
      }
    }
  }

  /** An object created by the browser library; the model keeps only its identity. */
  datatype Handle = Handle(id: nat)

  /** The session state of `PlatformAdapter` and the behaviour the base class defines. */
  class PlatformAdapter {
    const adapterClass: AdapterClass
    const username: string
    const password: string
    /** The name of the cookie file (its directory, the project root, is outside the model). */
    const cookiesFile: string
    var isLoggedIn: bool
    var browser: Option<Handle>
    var context: Option<Handle>
    var page: Option<Handle>
    /** The contexts whose cookies were written to the cookie file, oldest first. */
    var savedCookies: seq<Handle>

    /** A browser, its context and its page exist together or not at all. */
    predicate Valid()
      reads this
    {
      && (browser.None? <==> context.None?)
      && (browser.None? <==> page.None?)
    }

    /** A new adapter: not logged in, no browser session, nothing saved. */
    constructor (c: AdapterClass, username: string, password: string)
      ensures Valid()
      ensures adapterClass == c && this.username == username && this.password == password
      ensures cookiesFile == CookiesFileName(c)
      ensures !isLoggedIn && browser == None && context == None && page == None
      ensures savedCookies == []
    {
      adapterClass := c;
      this.username := username;
      this.password := password;
      cookiesFile := CookiesFileName(c);
      isLoggedIn := false;
      browser, context, page := None, None, None;
      savedCookies := [];
    }

    /**
     * `init_browser`: with a browser already open nothing changes; otherwise
     * the launched browser, a new context and its page are installed.  The
     * handles are what the browser library returns.
     */
    method InitBrowser(launched: Handle, newContext: Handle, newPage: Handle)
      requires Valid()
      modifies this
      ensures Valid()
      ensures old(browser).Some? ==> browser == old(browser) && context == old(context) && page == old(page)
      ensures old(browser).None? ==>
        browser == Some(launched) && context == Some(newContext) && page == Some(newPage)
      ensures isLoggedIn == old(isLoggedIn) && savedCookies == old(savedCookies)
    {
      if browser.Some? {
        return;
      }
      browser := Some(launched);
      context := Some(newContext);
      page := Some(newPage);
    }

    /** `save_cookies`: the cookies of the current context, if there is one, are written out. */
    method SaveCookies()
      modifies this
      ensures savedCookies == old(savedCookies) + (if old(context).Some? then [old(context).value] else [])
      ensures isLoggedIn == old(isLoggedIn)
      ensures browser == old(browser) && context == old(context) && page == old(page)
    {
      if context.Some? {
        savedCookies := savedCookies + [context.value];
      }
    }

    /** `close_browser`: with a browser open, saves the cookies and drops the session; otherwise a no-op. */
    method CloseBrowser()
      requires Valid()
      modifies this
      ensures Valid()
      ensures browser == None && context == None && page == None
      ensures savedCookies == old(savedCookies) + (if old(browser).Some? then [old(context).value] else [])
      ensures isLoggedIn == old(isLoggedIn)
    {
      if browser.Some? {
        SaveCookies();
        browser, context, page := None, None, None;
      }
    }

    /** `logout`: closes the browser, forgets the login and reports success. */
    method Logout() returns (r: bool)
      requires Valid()
      modifies this
      ensures Valid()
      ensures r && !isLoggedIn
      ensures browser == None && context == None && page == None
      ensures savedCookies == old(savedCookies) + (if old(browser).Some? then [old(context).value] else [])
    {
      CloseBrowser();
      isLoggedIn := false;
      r := true;
    }

    /**
     * The classes whose capability methods leave the browser session alone:
     * the base class, which raises, and the LinkedIn stub.  What the
     * browser-driven adapters do to the session is outside the model.
     */
    predicate Stubbed()
      reads this
    {
      adapterClass == BaseAdapter || adapterClass == LinkedInAdapter
    }

    /**
     * `login`, dispatched on the adapter's class as Python dispatches it to
     * the subclass: the base class raises `NotImplementedError`, the LinkedIn
     * stub logs in and returns true, and a browser-driven adapter gives
     * `outcome`, the outcome of its browser automation.
     */
    method Login(outcome: Call<bool>) returns (r: Call<bool>)
      requires Valid()
      modifies this
      ensures Valid()
      ensures r == Capability(adapterClass, true, outcome)
      ensures adapterClass == LinkedInAdapter ==> isLoggedIn
      ensures adapterClass == BaseAdapter ==> isLoggedIn == old(isLoggedIn)
      ensures Stubbed() ==>
        browser == old(browser) && context == old(context) && page == old(page) && savedCookies == old(savedCookies)
    {
      if adapterClass == LinkedInAdapter {
        isLoggedIn := true;
      }
      r := Capability(adapterClass, true, outcome);
    }

    /**
     * The shared body of `post`, `like`, `comment` and `follow`: the LinkedIn
     * stub logs in first if needed and succeeds; the other classes behave as
     * for `login`.
     */
    method Act(outcome: Call<bool>) returns (r: Call<bool>)
      requires Valid()
      modifies this
      ensures Valid()
      ensures r == Capability(adapterClass, true, outcome)
      ensures adapterClass == LinkedInAdapter ==> isLoggedIn
      ensures adapterClass == BaseAdapter ==> isLoggedIn == old(isLoggedIn)
      ensures Stubbed() ==>
        browser == old(browser) && context == old(context) && page == old(page) && savedCookies == old(savedCookies)
    {
      if adapterClass == LinkedInAdapter && !isLoggedIn {
        var _ := Login(outcome);
      }
      r := Capability(adapterClass, true, outcome);
    }

    method Post(content: string, outcome: Call<bool>) returns (r: Call<bool>)
      requires Valid()
      modifies this
      ensures Valid()
      ensures r == Capability(adapterClass, true, outcome)
      ensures adapterClass == LinkedInAdapter ==> isLoggedIn
      ensures adapterClass == BaseAdapter ==> isLoggedIn == old(isLoggedIn)
      ensures Stubbed() ==>
        browser == old(browser) && context == old(context) && page == old(page) && savedCookies == old(savedCookies)
    {
      r := Act(outcome);
    }

    method Like(postId: string, outcome: Call<bool>) returns (r: Call<bool>)
      requires Valid()
      modifies this
      ensures Valid()
      ensures r == Capability(adapterClass, true, outcome)
      ensures adapterClass == LinkedInAdapter ==> isLoggedIn
      ensures adapterClass == BaseAdapter ==> isLoggedIn == old(isLoggedIn)
      ensures Stubbed() ==>
        browser == old(browser) && context == old(context) && page == old(page) && savedCookies == old(savedCookies)
    {
      r := Act(outcome);
    }

    method Comment(postId: string, content: string, outcome: Call<bool>) returns (r: Call<bool>)
      requires Valid()
      modifies this
      ensures Valid()
      ensures r == Capability(adapterClass, true, outcome)
      ensures adapterClass == LinkedInAdapter ==> isLoggedIn
      ensures adapterClass == BaseAdapter ==> isLoggedIn == old(isLoggedIn)
      ensures Stubbed() ==>
        browser == old(browser) && context == old(context) && page == old(page) && savedCookies == old(savedCookies)
    {
      r := Act(outcome);
    }

    method Follow(user: string, outcome: Call<bool>) returns (r: Call<bool>)
      requires Valid()
      modifies this
      ensures Valid()
      ensures r == Capability(adapterClass, true, outcome)
      ensures adapterClass == LinkedInAdapter ==> isLoggedIn
      ensures adapterClass == BaseAdapter ==> isLoggedIn == old(isLoggedIn)
      ensures Stubbed() ==>
        browser == old(browser) && context == old(context) && page == old(page) && savedCookies == old(savedCookies)
    {
      r := Act(outcome);
    }

    /** `search`: the base class raises, the LinkedIn stub finds nothing, a browser adapter gives `outcome`. */
    method Search(query: string, limit: int, outcome: Call<seq<Fields>>) returns (r: Call<seq<Fields>>)
      requires Valid()
      modifies this
      ensures Valid()
      ensures r == Capability(adapterClass, [], outcome)
      ensures Stubbed() ==>
        && isLoggedIn == old(isLoggedIn) && browser == old(browser) && context == old(context)
        && page == old(page) && savedCookies == old(savedCookies)
    {
      r := Capability(adapterClass, [], outcome);
    }

    /** `get_mentions`: as `search`, for the mentions since the cursor. */
    method GetMentions(sinceId: Option<string>, outcome: Call<seq<Fields>>) returns (r: Call<seq<Fields>>)
      requires Valid()
      modifies this
      ensures Valid()
      ensures r == Capability(adapterClass, [], outcome)
      ensures Stubbed() ==>
        && isLoggedIn == old(isLoggedIn) && browser == old(browser) && context == old(context)
        && page == old(page) && savedCookies == old(savedCookies)
    {
      r := Capability(adapterClass, [], outcome);
    }
  }

  /**
   * What calling a capability (`login`, `post`, `comment`, `get_mentions`,
   * ...) on an adapter of class `c` gives: the base class raises
   * `NotImplementedError` (whose `str()` is empty), the LinkedIn stub
   * returns `stub`, and the outcome of a browser adapter is `browser`.
   */
  function Capability<T>(c: AdapterClass, stub: T, browser: Call<T>): (r: Call<T>)
    ensures c == BaseAdapter ==> r == Raised("")
    ensures c == LinkedInAdapter ==> r == Returned(stub)
    ensures c != BaseAdapter && c != LinkedInAdapter ==> r == browser
  {
    match c
    case BaseAdapter => Raised("")
    case LinkedInAdapter => Returned(stub)
    case _ => browser
  }

  /** The registry lookup: the class registered under the lower-cased name, if any. */
  function Lookup(classes: map<string, AdapterClass>, platform: string): (r: Option<AdapterClass>)
    ensures r.Some? <==> Lower(platform) in classes
    ensures r.Some? ==> r.value == classes[Lower(platform)]
  {
    if Lower(platform) in classes then Some(classes[Lower(platform)]) else None
  }

  /** Names that lower-case alike resolve alike. */
  lemma LookupCaseInsensitive(classes: map<string, AdapterClass>, a: string, b: string)
    requires Lower(a) == Lower(b)
    ensures Lookup(classes, a) == Lookup(classes, b)
  {
  }

  /** The message of the `ValueError` `get_adapter` raises for a name that is not registered. */
  function NotSupported(platform: string): string {
    "Platform " + platform + " not supported"
  }

  /** `PlatformRegistry`: adapter classes by lower-cased name, in registration order. */
  class PlatformRegistry {
    /** The keys of the dictionary, in insertion order. */
    var names: seq<string>
    var classes: map<string, AdapterClass>

    /** The names are exactly the keys, each once, and each already lower-case. */
    predicate Valid()
      reads this
    {
      && (forall n :: n in names ==> n in classes)
      && (forall n :: n in classes ==> n in names)
      && Distinct(names)
      && (forall n :: n in classes ==> Lower(n) == n)
    }

    constructor ()
      ensures Valid() && names == [] && classes == map[]
    {
      names, classes := [], map[];
    }

    /** `register`: stores the class under the lower-cased name, replacing an earlier one in place. */
    method Register(platform: string, c: AdapterClass)
      requires Valid()
      modifies this
      ensures Valid()
      ensures classes == old(classes)[Lower(platform) := c]
      ensures names == if Lower(platform) in old(classes) then old(names) else old(names) + [Lower(platform)]
    {
      var key := Lower(platform);
      LowerIdempotent(platform);
      if key !in classes {
        DistinctAppend(names, key);
        names := names + [key];
      }
      classes := classes[key := c];
    }

    /** `get_adapter`: a fresh, logged-out adapter of the registered class, or a `ValueError`. */
    method GetAdapter(platform: string, username: string, password: string)
      returns (r: Call<PlatformAdapter>)
      ensures Lookup(classes, platform).None? ==> r == Raised(NotSupported(platform))
      ensures Lookup(classes, platform).Some? ==>
        && r.Returned? && fresh(r.value) && r.value.Valid()
        && r.value.adapterClass == Lookup(classes, platform).value
        && r.value.username == username && r.value.password == password
        && !r.value.isLoggedIn && r.value.browser == None && r.value.savedCookies == []
    {
      var found := Lookup(classes, platform);
      if found.None? {
        return Raised(NotSupported(platform));
      }
      var adapter := new PlatformAdapter(found.value, username, password);
      r := Returned(adapter);
    }

    /** `list_platforms`: every registered name, once each. */
    function ListPlatforms(): (r: seq<string>)
      requires Valid()
      reads this
      ensures forall n :: n in r <==> n in classes
      ensures Distinct(r)
    {
      names
    }
  }

  /** The classes the platforms package registers when it is imported. */
  const DefaultClasses: map<string, AdapterClass> :=
    map["twitter" := TwitterAdapter, "instagram" := InstagramAdapter]

  /** The package initialisation: a registry holding exactly Twitter and Instagram, in that order. */
  method DefaultRegistry() returns (reg: PlatformRegistry)
    ensures fresh(reg) && reg.Valid()
    ensures reg.classes == DefaultClasses
    ensures reg.ListPlatforms() == ["twitter", "instagram"]
  {
    reg := new PlatformRegistry();
    LowerNoCapitals("twitter");
    LowerNoCapitals("instagram");
    reg.Register("twitter", TwitterAdapter);
    reg.Register("instagram", InstagramAdapter);
  }

  lemma LowerCapitalTwitter(x: string)
    requires x == "Twitter"
    ensures Lower(x) == "twitter"
  {
    assert x == "T" + "witter";
    LowerNoCapitals("witter");
    LowerAppend("T", "witter");
    assert Lower("T") == "t";
  }

  /**
   * Lookups in the default registry: "twitter" in any case and "instagram"
   * resolve, "facebook" and "linkedin" have no adapter.
   */
  lemma DefaultLookups()
    ensures Lookup(DefaultClasses, "twitter") == Some(TwitterAdapter)
    ensures Lookup(DefaultClasses, "Twitter") == Some(TwitterAdapter)
    ensures Lookup(DefaultClasses, "instagram") == Some(InstagramAdapter)
    ensures Lookup(DefaultClasses, "facebook") == None
    ensures Lookup(DefaultClasses, "linkedin") == None
  {
    LowerNoCapitals("twitter");
    LowerCapitalTwitter("Twitter");
    LowerNoCapitals("instagram");
    LowerNoCapitals("facebook");
    LowerNoCapitals("linkedin");
  }

  /**
   * `get_adapter("twitter", "user", "pass")` on the default registry gives a
   * logged-out Twitter adapter for "user", whose `login` is the browser's
   * outcome rather than the base class's exception.
   */
  method TwitterAdapterExample(outcome: Call<bool>) returns (a: PlatformAdapter, l: Call<bool>)
    ensures a.adapterClass == TwitterAdapter && a.username == "user"
    ensures l == outcome
  {
    var reg := DefaultRegistry();
    DefaultLookups();
    var r := reg.GetAdapter("twitter", "user", "pass");
    a := r.value;
    assert !a.isLoggedIn;
    l := a.Login(outcome);
  }

  /**
   * A LinkedIn adapter: `post` on a fresh, logged-out adapter logs it in and
   * succeeds whatever a browser would have done, `search` finds nothing, and
   * no browser is started.
   */
  method LinkedInExample(outcome: Call<bool>, found: Call<seq<Fields>>)
    returns (p: Call<bool>, s: Call<seq<Fields>>, a: PlatformAdapter)
    ensures p == Returned(true) && s == Returned([])
    ensures a.isLoggedIn && a.browser == None && a.savedCookies == []
  {
    a := new PlatformAdapter(LinkedInAdapter, "user", "pass");
    p := a.Post("hello", outcome);
    s := a.Search("bio", 10, found);
  }

  /** The base class itself: every capability raises `NotImplementedError`. */
  method BaseAdapterExample(outcome: Call<bool>) returns (l: Call<bool>, f: Call<bool>)
    ensures l == Raised("") && f == Raised("")
  {
    var a := new PlatformAdapter(BaseAdapter, "user", "pass");
    l := a.Login(outcome);
    f := a.Follow("someone", outcome);
  }
}
