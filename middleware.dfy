/**
 * `djutils/middleware.py`: the subdomain middleware and the middleware that
 * switches CSRF processing off. `urlparse.urlsplit(host).netloc` is a library
 * call and is taken as an input.
 */
module Middleware {
  import opened Wrappers
  import opened Text

  /**
   * `tld_bits = netloc.rsplit('.', 2)`, then `len(tld_bits) == 3 and tld_bits[0] or None`:
   * the first part when there are three parts and it is non-empty.
   */
  function Subdomain(netloc: string): (r: Option<string>)
    ensures r.Some? <==> TwoOccurrences(netloc, '.') && RSplit2(netloc, '.')[0] != ""
  {
    RSplit2ThreePartsIff(netloc, '.');
    var bits := RSplit2(netloc, '.');
    if |bits| == 3 && bits[0] != "" then Some(bits[0]) else None
  }

  /** With fewer than two dots there is no subdomain. */
  lemma FewerThanTwoDots(netloc: string)
    requires !TwoOccurrences(netloc, '.')
    ensures Subdomain(netloc) == None
  {
  }

  /**
   * The subdomain is everything before the last two dots, inner dots included;
   * an empty first part, as in `.example.com`, gives None.
   */
  lemma SubdomainOf(sub: string, domain: string, tld: string)
    requires '.' !in domain && '.' !in tld
    ensures Subdomain(sub + "." + domain + "." + tld) == if sub == "" then None else Some(sub)
  {
    var s := sub + "." + domain + "." + tld;
    var front := sub + "." + domain;
    assert s == front + ['.'] + tld;
    LastIndexOfBefore(front, '.', tld);
    assert s[..|front|] == front;
    LastIndexOfBefore(sub, '.', domain);
    assert front[..|sub|] == sub;
    assert RSplit2(s, '.') == [s[..|sub|], s[|sub| + 1..|front|], s[|front| + 1..]];
    assert s[..|sub|] == sub;
  }

  /** Every subdomain found has that shape: it is followed by exactly two more dot-free parts. */
  lemma SubdomainShape(netloc: string)
    requires Subdomain(netloc).Some?
    ensures var bits := RSplit2(netloc, '.');
      |bits| == 3 && Subdomain(netloc) == Some(bits[0]) && netloc == bits[0] + "." + bits[1] + "." + bits[2] &&
      '.' !in bits[1] && '.' !in bits[2]
  {
    RSplit2Parts(netloc, '.');
    RSplit2ThreePartsIff(netloc, '.');
    var bits := RSplit2(netloc, '.');
    assert bits[1..][1..] == [bits[2]];
    assert Join(bits, '.') == bits[0] + "." + (bits[1] + "." + bits[2]);
  }

  /** `a.b.example.com` gives `a.b`. */
  lemma InnerDotsKept()
    ensures Subdomain("a.b.example.com") == Some("a.b")
  {
    assert "a.b" + "." + "example" + "." + "com" == "a.b.example.com";
    SubdomainOf("a.b", "example", "com");
  }

  /** `.example.com` gives None. */
  lemma EmptyFirstPart()
    ensures Subdomain(".example.com") == None
  {
    assert "" + "." + "example" + "." + "com" == ".example.com";
    SubdomainOf("", "example", "com");
  }

  /** The request attributes the middlewares touch; an unset attribute is `None`. */
  class HttpRequest {
    const meta: map<string, string>
    var subdomain: Option<Option<string>>
    var csrfProcessingDone: bool

    constructor (meta: map<string, string>)
      ensures this.meta == meta && subdomain == None && !csrfProcessingDone
    {
      this.meta := meta;
      subdomain := None;
      csrfProcessingDone := false;
    }
  }

  /** `SubdomainMiddleware.process_request`: sets `subdomain` only when `HTTP_HOST` is present. */
  method ProcessSubdomain(request: HttpRequest, netlocOf: string -> string)
    modifies request
    ensures "HTTP_HOST" in request.meta ==> request.subdomain == Some(Subdomain(netlocOf(request.meta["HTTP_HOST"])))
    ensures "HTTP_HOST" !in request.meta ==> request.subdomain == old(request.subdomain)
    ensures request.csrfProcessingDone == old(request.csrfProcessingDone)
  {
    if "HTTP_HOST" in request.meta {
      var host := request.meta["HTTP_HOST"];
      request.subdomain := Some(Subdomain(netlocOf(host)));
    }
  }

  /** `IgnoreCsrfMiddleware.process_request`: always marks CSRF processing as done. */
  method IgnoreCsrf(request: HttpRequest)
    modifies request
    ensures request.csrfProcessingDone && request.subdomain == old(request.subdomain)
  {
    request.csrfProcessingDone := true;
  }
}
