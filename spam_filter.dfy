/**
 * `djutils/utils/spam.py`: the spam-filter site, which sends objects of
 * registered model classes to Akismet through their provider and lets the
 * provider act on a positive verdict. The Akismet client's answer is an
 * input: a function from the query to the verdict.
 */
module SpamFilter {
  import opened Wrappers
  import opened Errors

  /** The arguments of `client.is_spam(comment, ip, author, email)`. */
  datatype Query = Query(comment: string, ip: string, author: string, email: string)

  /** The provider classes: the `SpamProvider` base and the sample `CommentProvider`. */
  datatype Provider = SpamProvider | CommentProvider

  /** A posted comment, with the fields the comment provider reads and writes. */
  class Comment {
    /** `type(obj)`. */
    const modelClass: string
    const comment: string
    const userName: string
    const userEmail: string
    const ipAddress: string
    var isPublic: bool
    var isRemoved: bool
    /** How many times `save()` was called. */
    var saves: nat

    constructor (modelClass: string, comment: string, userName: string, userEmail: string, ipAddress: string, isPublic: bool)
      ensures this.modelClass == modelClass && this.comment == comment && this.userName == userName
      ensures this.userEmail == userEmail && this.ipAddress == ipAddress
      ensures this.isPublic == isPublic && !isRemoved && saves == 0
    {
      this.modelClass := modelClass;
      this.comment := comment;
      this.userName := userName;
      this.userEmail := userEmail;
      this.ipAddress := ipAddress;
      this.isPublic := isPublic;
      isRemoved := false;
      saves := 0;
    }
  }

  /** `should_check`: always for the base class, `is_public` for comments. */
  function ShouldCheck(p: Provider, obj: Comment): (b: bool)
    reads obj
    ensures p.SpamProvider? ==> b
    ensures p.CommentProvider? ==> (b <==> obj.isPublic)
  {
    match p
    case SpamProvider => true
    case CommentProvider => obj.isPublic
  }

  /** The client's arguments; the base class's `get_comment` raises NotImplementedError. */
  function QueryFor(p: Provider, obj: Comment): (r: Result<Query, Raised>)
    reads obj
    ensures p.SpamProvider? ==> r == Err(NotImplementedError)
    ensures p.CommentProvider? ==> r.Ok? && r.value.comment == obj.comment && r.value.ip == obj.ipAddress
    ensures p.CommentProvider? ==> r.Ok? && r.value.author == obj.userName && r.value.email == obj.userEmail
  {
    match p
    case SpamProvider => Err(NotImplementedError)
    case CommentProvider => Ok(Query(obj.comment, obj.ipAddress, obj.userName, obj.userEmail))
  }

  /** `CommentProvider.is_spam(obj)`: hides and removes the comment, then saves it. */
  method MarkAsSpam(obj: Comment)
    modifies obj
    ensures !obj.isPublic && obj.isRemoved && obj.saves == old(obj.saves) + 1
  {
    obj.isPublic := false;
    obj.isRemoved := true;
    obj.saves := obj.saves + 1;
  }

  class SpamFilterSite {
    const apiKey: string
    const blogUrl: string
    /** The Akismet verdict for a query. */
    const verdict: Query -> bool
    /** `_registry`: the provider for each model class. */
    var registry: map<string, Provider>
    /** The queries sent to the client, in order. */
    var queries: seq<Query>

    /** `SpamFilterSite(api_key, blog_url)` with its client. */
    constructor (apiKey: string, blogUrl: string, verdict: Query -> bool)
      ensures this.apiKey == apiKey && this.blogUrl == blogUrl && this.verdict == verdict
      ensures registry == map[] && queries == []
    {
      this.apiKey := apiKey;
      this.blogUrl := blogUrl;
      this.verdict := verdict;
      registry := map[];
      queries := [];
    }

    /** `register(model_class, provider)`: a fresh provider, replacing any earlier one. */
    method Register(modelClass: string, provider: Provider)
      modifies this
      ensures registry == old(registry)[modelClass := provider] && queries == old(queries)
    {
      registry := registry[modelClass := provider];
    }

    /** `unregister(model_class)`: removes the class; an absent class is no error. */
    method Unregister(modelClass: string)
      modifies this
      ensures registry == old(registry) - {modelClass} && queries == old(queries)
      ensures modelClass !in old(registry) ==> registry == old(registry)
    {
      if modelClass in registry {
        registry := registry - {modelClass};
      }
    }

    /**
     * `check_spam(obj)`: False, asking nobody, for an unregistered class or when
     * the provider says not to check; otherwise the client's verdict, and the
     * provider's `is_spam` runs exactly when that verdict is true.
     */
    method CheckSpam(obj: Comment) returns (r: Result<bool, Raised>)
      modifies this, obj
      ensures registry == old(registry)
      ensures obj.modelClass !in registry ==>
        r == Ok(false) && queries == old(queries) && unchanged(obj)
      ensures obj.modelClass in registry && !old(ShouldCheck(registry[obj.modelClass], obj)) ==>
        r == Ok(false) && queries == old(queries) && unchanged(obj)
      ensures obj.modelClass in registry && old(ShouldCheck(registry[obj.modelClass], obj)) && old(QueryFor(registry[obj.modelClass], obj)).Err? ==>
        r == Err(old(QueryFor(registry[obj.modelClass], obj)).error) && queries == old(queries) && unchanged(obj)
      ensures obj.modelClass in registry && old(ShouldCheck(registry[obj.modelClass], obj)) && old(QueryFor(registry[obj.modelClass], obj)).Ok? ==>
        var q := old(QueryFor(registry[obj.modelClass], obj)).value;
        queries == old(queries) + [q] && r == Ok(verdict(q)) &&
        (verdict(q) ==> !obj.isPublic && obj.isRemoved && obj.saves == old(obj.saves) + 1) &&
        (!verdict(q) ==> unchanged(obj))
    {
      if obj.modelClass !in registry {
        return Ok(false);
      }
      var provider := registry[obj.modelClass];
      if !ShouldCheck(provider, obj) {
        return Ok(false);
      }
      var query := QueryFor(provider, obj);
      if query.Err? {
        return Err(query.error);
      }
      queries := queries + [query.value];
      var isSpam := verdict(query.value);
      if isSpam {
        MarkAsSpam(obj);
      }
      r := Ok(isSpam);
    }
  }

  /**
   * `site = SpamFilterSite()` followed by `site.register(Comment, CommentProvider)`:
   * the default key and URL are empty when not configured.
   */
  method DefaultSite(akismetKey: string, akismetUrl: string, commentClass: string, verdict: Query -> bool)
    returns (site: SpamFilterSite)
    ensures site.apiKey == akismetKey && site.blogUrl == akismetUrl
    ensures site.registry == map[commentClass := CommentProvider] && site.queries == []
  {
    site := new SpamFilterSite(akismetKey, akismetUrl, verdict);
    site.Register(commentClass, CommentProvider);
  }

  /**
   * Because `should_check` is `is_public`, a comment found to be spam is never
   * sent to the client again: a second check answers False at no cost.
   */
  method CheckTwice(site: SpamFilterSite, obj: Comment) returns (first: Result<bool, Raised>, second: Result<bool, Raised>)
    requires obj.modelClass in site.registry && site.registry[obj.modelClass] == CommentProvider
    modifies site, obj
    ensures first == Ok(true) ==> second == Ok(false) && |site.queries| == |old(site.queries)| + 1
    ensures first.Ok? && second.Ok?
  {
    first := site.CheckSpam(obj);
    second := site.CheckSpam(obj);
  }
}
