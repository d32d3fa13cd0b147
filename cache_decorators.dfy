/**
 * `djutils/decorators.py`: the request throttle, `memoize` and
 * `cached_for_model`. The Django cache is an in-memory map; expiry is not
 * modelled, so entries live for ever.
 */
module CacheDecorators {
  import opened Wrappers
  import opened Text
  import opened Pickle
  import opened Errors

  // ---------------------------------------------------------------- throttle

  /** The parts of a request the throttle looks at; a META entry may be absent. */
  datatype Request = Request(httpMethod: string, forwardedFor: Option<string>, remoteAddr: Option<string>)

  /** `META.get('HTTP_X_FORWARDED_FOR') or META.get('REMOTE_ADDR')`: a non-empty forwarded address wins. */
  function RemoteAddress(req: Request): (r: Option<string>)
    ensures req.forwardedFor.Some? && req.forwardedFor.value != "" ==> r == req.forwardedFor
    ensures !(req.forwardedFor.Some? && req.forwardedFor.value != "") ==> r == req.remoteAddr
  {
    if req.forwardedFor.Some? && req.forwardedFor.value != "" then req.forwardedFor else req.remoteAddr
  }

  predicate AddressChar(c: char) { IsDigit(c) || c == '.' }

  /** `re.sub(r'[^0-9\.]', '', addr)`: every character but digits and dots is dropped. */
  function ThrottleKey(addr: string): (k: string)
    ensures |k| <= |addr|
    ensures forall i :: 0 <= i < |k| ==> AddressChar(k[i])
    ensures forall i :: 0 <= i < |addr| && AddressChar(addr[i]) ==> addr[i] in k
    ensures (forall i :: 0 <= i < |addr| ==> AddressChar(addr[i])) ==> k == addr
  {
    if addr == [] then []
    else if AddressChar(addr[0]) then [addr[0]] + ThrottleKey(addr[1..])
    else ThrottleKey(addr[1..])
  }

  /** The key of a concatenation is the concatenation of the keys. */
  lemma {:induction false} ThrottleKeyConcat(a: string, b: string)
    ensures ThrottleKey(a + b) == ThrottleKey(a) + ThrottleKey(b)
  {
    if a == [] {
      assert a + b == b;
    } else {
      assert (a + b)[0] == a[0] && (a + b)[1..] == a[1..] + b;
      ThrottleKeyConcat(a[1..], b);
    }
  }

  /** Stripping a key again changes nothing. */
  lemma ThrottleKeyIdempotent(addr: string)
    ensures ThrottleKey(ThrottleKey(addr)) == ThrottleKey(addr)
  {
  }

  /** `throttle(view)` counts POST only; `throttle(methods)` counts the methods given. */
  datatype Methods = DecoratesView | Listed(methods: seq<string>)

  function CountedMethods(m: Methods): (r: seq<string>)
    ensures m.DecoratesView? ==> r == ["POST"]
    ensures m.Listed? ==> r == m.methods
  {
    match m
    case DecoratesView => ["POST"]
    case Listed(ms) => ms
  }

  /** The parameters' defaults. */
  const DefaultLimit: int := 3
  const DefaultDuration: int := 900

  /**
   * One counted request against the cached count for its key: refused (and the
   * count left alone) exactly at the limit; otherwise an absent or zero count
   * becomes 1 and any other is incremented. The answer is (refused, new count).
   */
  function ThrottleStep(limit: int, cached: Option<int>): (r: (bool, Option<int>))
    ensures r.0 <==> cached == Some(limit)
    ensures r.0 ==> r.1 == cached
    ensures !r.0 && (cached.None? || cached.value == 0) ==> r.1 == Some(1)
    ensures !r.0 && cached.Some? && cached.value != 0 ==> r.1 == Some(cached.value + 1)
  {
    if cached == Some(limit) then (true, cached)
    else if cached.None? || cached.value == 0 then (false, Some(1))
    else (false, Some(cached.value + 1))
  }

  /** `n` counted requests from one key: how many reached the view, and the final count. */
  function ThrottleRun(limit: int, cached: Option<int>, n: nat): (nat, Option<int>)
    decreases n
  {
    if n == 0 then (0, cached)
    else
      var step := ThrottleStep(limit, cached);
      var rest := ThrottleRun(limit, step.1, n - 1);
      (if step.0 then rest.0 else rest.0 + 1, rest.1)
  }

  function Min(a: nat, b: nat): nat { if a <= b then a else b }

  /** From a count `c` in 1..limit, exactly `limit - c` more requests are served. */
  lemma {:induction false} ThrottleRunFrom(limit: int, c: int, n: nat)
    requires 1 <= c <= limit
    ensures ThrottleRun(limit, Some(c), n) == (Min(n, limit - c), Some(c + Min(n, limit - c)))
    decreases n
  {
    if n > 0 && c < limit {
      ThrottleRunFrom(limit, c + 1, n - 1);
    } else if n > 0 {
      ThrottleRunFrom(limit, c, n - 1);
    }
  }

  /**
   * Per key, and ignoring expiry, the view runs exactly `limit` times before
   * the requests are refused, and the count never exceeds `limit`.
   */
  lemma ThrottleRunFromEmpty(limit: int, n: nat)
    requires limit >= 1
    ensures ThrottleRun(limit, None, n).0 == Min(n, limit)
    ensures n > 0 ==> ThrottleRun(limit, None, n).1 == Some(Min(n, limit))
  {
    if n > 0 {
      ThrottleRunFrom(limit, 1, n - 1);
    }
  }

  /** With a limit below 1 the count passes the limit at once and nothing is ever refused. */
  lemma {:induction false} ThrottleNeverRefusesBelowOne(limit: int, c: int, n: nat)
    requires limit < 1 && c >= 1
    ensures ThrottleRun(limit, Some(c), n).0 == n
    decreases n
  {
    if n > 0 {
      ThrottleNeverRefusesBelowOne(limit, c + 1, n - 1);
    }
  }

  datatype Response = Forbidden(message: string) | ViewResponse

  /** The Django cache as the throttle uses it: integer counts by key. */
  class CountCache {
    var counts: map<string, int>

    constructor ()
      ensures counts == map[]
    {
      counts := map[];
    }
  }

  function Lookup(m: map<string, int>, key: string): (r: Option<int>)
    ensures r.Some? <==> key in m
    ensures r.Some? ==> r.value == m[key]
  {
    if key in m then Some(m[key]) else None
  }

  /** The view wrapped by `throttle`. */
  class Throttle {
    const methods: seq<string>
    const limit: int
    const cache: CountCache
    /** How many times the wrapped view has run. */
    var viewCalls: nat

    constructor (methodsOrView: Methods, limit: int, cache: CountCache)
      ensures methods == CountedMethods(methodsOrView) && this.limit == limit && this.cache == cache && viewCalls == 0
    {
      methods := CountedMethods(methodsOrView);
      this.limit := limit;
      this.cache := cache;
      viewCalls := 0;
    }

    /** A request is counted when its method is listed and it has a (non-empty) remote address. */
    predicate Counted(req: Request)
      reads this
    {
      req.httpMethod in methods && RemoteAddress(req).Some? && RemoteAddress(req).value != ""
    }

    /** `inner(request)`: uncounted requests pass through; counted ones follow `ThrottleStep`. */
    method Inner(req: Request) returns (r: Response)
      modifies this, cache
      ensures !Counted(req) ==> r == ViewResponse && cache.counts == old(cache.counts) && viewCalls == old(viewCalls) + 1
      ensures Counted(req) ==>
        var key := ThrottleKey(RemoteAddress(req).value);
        var step := ThrottleStep(limit, Lookup(old(cache.counts), key));
        (step.0 ==> r == Forbidden("Try slowing down a little.") && cache.counts == old(cache.counts) && viewCalls == old(viewCalls)) &&
        (!step.0 ==> r == ViewResponse && cache.counts == old(cache.counts)[key := step.1.value] && viewCalls == old(viewCalls) + 1)
    {
      if req.httpMethod in methods {
        var remote := RemoteAddress(req);
        if remote.Some? && remote.value != "" {
          var key := ThrottleKey(remote.value);
          var cached := Lookup(cache.counts, key);
          if cached == Some(limit) {
            return Forbidden("Try slowing down a little.");
          } else if cached.None? || cached.value == 0 {
            cache.counts := cache.counts[key := 1];
          } else {
            cache.counts := cache.counts[key := cached.value + 1];
          }
        }
      }
      viewCalls := viewCalls + 1;
      r := ViewResponse;
    }
  }

  // ----------------------------------------------------------------- memoize

  /** `(args, tuple(kwargs.items()))`. */
  datatype CallKey = CallKey(args: seq<Value>, kwargs: seq<(string, Value)>)

  /** Python 2 `hash(v)` succeeds: a dict, at any depth inside tuples, has no hash. */
  predicate Hashable(v: Value)
  {
    match v
    case VDict(_) => false
    case VTuple(items) => forall i :: 0 <= i < |items| ==> Hashable(items[i])
    case _ => true
  }

  /** The key tuple hashes iff every positional argument and every keyword value does. */
  predicate KeyHashable(k: CallKey)
  {
    (forall i :: 0 <= i < |k.args| ==> Hashable(k.args[i])) &&
    (forall i :: 0 <= i < |k.kwargs| ==> Hashable(k.kwargs[i].1))
  }

  /** What `key not in func._memoize_cache` raises for an unhashable key. */
  const UnhashableDict: Raised := TypeError("unhashable type: 'dict'")

  /** A function wrapped by `memoize`, with its `_memoize_cache`. */
  class Memoized {
    const func: CallKey -> Value
    var memo: map<CallKey, Value>
    /** The keys `func` was actually called with, in order. */
    var computed: seq<CallKey>

    ghost predicate Valid()
      reads this
    {
      (forall k :: k in memo ==> memo[k] == func(k) && KeyHashable(k)) &&
      (forall k :: k in memo <==> k in computed) &&
      (forall i, j :: 0 <= i < j < |computed| ==> computed[i] != computed[j])
    }

    constructor (func: CallKey -> Value)
      ensures Valid() && this.func == func && memo == map[] && computed == []
    {
      this.func := func;
      memo := map[];
      computed := [];
    }

    /**
     * `inner(*args, **kwargs)`: an unhashable key raises TypeError at the
     * membership test, before `func` runs and with nothing stored. Otherwise the
     * first call for a key computes and stores; a later one returns the stored
     * value without calling `func`, so `func` is called at most once per key.
     */
    method Call(args: seq<Value>, kwargs: seq<(string, Value)>) returns (r: Result<Value, Raised>)
      requires Valid()
      modifies this
      ensures Valid()
      ensures !KeyHashable(CallKey(args, kwargs)) ==>
        r == Err(UnhashableDict) && memo == old(memo) && computed == old(computed)
      ensures KeyHashable(CallKey(args, kwargs)) ==> r == Ok(func(CallKey(args, kwargs)))
      ensures CallKey(args, kwargs) in old(memo) ==> memo == old(memo) && computed == old(computed)
      ensures KeyHashable(CallKey(args, kwargs)) && CallKey(args, kwargs) !in old(memo) ==>
        memo == old(memo)[CallKey(args, kwargs) := r.value] && computed == old(computed) + [CallKey(args, kwargs)]
    {
      var key := CallKey(args, kwargs);
      if !KeyHashable(key) {
        r := Err(UnhashableDict);
        return;
      }
      if key !in memo {
        memo := memo[key := func(key)];
        computed := computed + [key];
      }
      r := Ok(memo[key]);
    }
  }

  /** A dict among the positional arguments makes the call raise TypeError. */
  lemma DictArgumentUnhashable(d: seq<(string, Value)>, rest: seq<Value>)
    ensures !KeyHashable(CallKey([VDict(d)] + rest, []))
  {
    assert CallKey([VDict(d)] + rest, []).args[0] == VDict(d);
  }

  // --------------------------------------------------------- cached_for_model

  /** A model instance: its model's `_meta.module_name` and its primary key. */
  datatype Instance = Instance(moduleName: string, pk: int)

  /** `'djutils.%s.cached.%s.%s.%s' % (SITE_ID, module_name, func name, pk)`. */
  function ModelCacheKey(siteId: int, moduleName: string, funcName: string, pk: int): (k: string)
    ensures |k| >= |"djutils."| && k[..|"djutils."|] == "djutils."
  {
    "djutils." + IntToString(siteId) + ".cached." + moduleName + "." + funcName + "." + IntToString(pk)
  }

  /** Two instances of one model get the same key only when their primary keys are equal. */
  lemma ModelCacheKeyDistinguishesPk(siteId: int, moduleName: string, funcName: string, a: int, b: int)
    ensures ModelCacheKey(siteId, moduleName, funcName, a) == ModelCacheKey(siteId, moduleName, funcName, b) ==> a == b
  {
    var p := "djutils." + IntToString(siteId) + ".cached." + moduleName + "." + funcName + ".";
    assert ModelCacheKey(siteId, moduleName, funcName, a) == p + IntToString(a);
    assert ModelCacheKey(siteId, moduleName, funcName, b) == p + IntToString(b);
    if ModelCacheKey(siteId, moduleName, funcName, a) == ModelCacheKey(siteId, moduleName, funcName, b) {
      assert IntToString(a) == (p + IntToString(a))[|p|..];
      assert IntToString(b) == (p + IntToString(b))[|p|..];
      IntToStringInjective(a, b);
    }
  }

  /** A model method wrapped by `cached_for_model`. The key ignores the call's other arguments. */
  class ModelCache {
    const siteId: int
    const funcName: string
    const func: (Instance, CallKey) -> Value
    var store: map<string, Value>
    /** The calls that reached `func`, in order. */
    var computed: seq<(Instance, CallKey)>

    constructor (siteId: int, funcName: string, func: (Instance, CallKey) -> Value, store: map<string, Value>)
      ensures this.siteId == siteId && this.funcName == funcName && this.func == func
      ensures this.store == store && computed == []
    {
      this.siteId := siteId;
      this.funcName := funcName;
      this.func := func;
      this.store := store;
      computed := [];
    }

    function KeyFor(self: Instance): string
    {
      ModelCacheKey(siteId, self.moduleName, funcName, self.pk)
    }

    /**
     * `inner(self, *args, **kwargs)`: recomputes and stores when the key is
     * absent or DEBUG is on; otherwise answers what is stored. The store keeps
     * every value set in it, None included, as a local-memory cache does.
     */
    method Inner(self: Instance, args: seq<Value>, kwargs: seq<(string, Value)>, debug: bool) returns (r: Value)
      modifies this
      ensures KeyFor(self) !in old(store) || debug ==>
        r == func(self, CallKey(args, kwargs)) && store == old(store)[KeyFor(self) := r] &&
        computed == old(computed) + [(self, CallKey(args, kwargs))]
      ensures KeyFor(self) in old(store) && !debug ==>
        r == old(store)[KeyFor(self)] && store == old(store) && computed == old(computed)
    {
      var key := KeyFor(self);
      if key !in store || debug {
        r := func(self, CallKey(args, kwargs));
        store := store[key := r];
        computed := computed + [(self, CallKey(args, kwargs))];
      } else {
        r := store[key];
      }
    }
  }
}
