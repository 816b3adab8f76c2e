/** HTTP methods with their wire names and semantic flags, and the method/parameters pair. */
module HTTP {
  import opened Wrappers

  datatype HTTPMethod = Get | Post | Put | Delete | Patch | Head | Options | Trace | Connect

  /** Every case, once each. */
  const AllMethods: seq<HTTPMethod> := [Get, Post, Put, Delete, Patch, Head, Options, Trace, Connect]

  /** The method's raw value: its name in upper case. */
  function RawValue(m: HTTPMethod): (r: string)
    ensures IsUpperCaseWord(r)
  {
    match m
    case Get => "GET"
    case Post => "POST"
    case Put => "PUT"
    case Delete => "DELETE"
    case Patch => "PATCH"
    case Head => "HEAD"
    case Options => "OPTIONS"
    case Trace => "TRACE"
    case Connect => "CONNECT"
  }

  /** `HTTPMethod(rawValue:)`, the failable initializer Swift derives from the raw values. */
  function FromRawValue(s: string): (r: Option<HTTPMethod>)
    ensures r.Some? ==> RawValue(r.value) == s
  {
    if s == "GET" then Some(Get)
    else if s == "POST" then Some(Post)
    else if s == "PUT" then Some(Put)
    else if s == "DELETE" then Some(Delete)
    else if s == "PATCH" then Some(Patch)
    else if s == "HEAD" then Some(Head)
    else if s == "OPTIONS" then Some(Options)
    else if s == "TRACE" then Some(Trace)
    else if s == "CONNECT" then Some(Connect)
    else None
  }

  predicate IsUpperCaseWord(s: string)
  {
    |s| > 0 && forall i :: 0 <= i < |s| ==> 'A' <= s[i] <= 'Z'
  }

  /** Raw values are upper-case words, and a raw value names exactly one method. */
  lemma RawValueRoundTrip(m: HTTPMethod)
    ensures IsUpperCaseWord(RawValue(m))
    ensures FromRawValue(RawValue(m)) == Some(m)
  {
  }

  lemma RawValueInjective(m: HTTPMethod, n: HTTPMethod)
    ensures RawValue(m) == RawValue(n) <==> m == n
  {
    RawValueRoundTrip(m);
    RawValueRoundTrip(n);
  }

  lemma AllMethodsComplete(m: HTTPMethod)
    ensures m in AllMethods
    ensures |AllMethods| == 9
    ensures forall i, j :: 0 <= i < j < |AllMethods| ==> AllMethods[i] != AllMethods[j]
  {
  }

  predicate IsGET(m: HTTPMethod) { m == Get }
  predicate IsPOST(m: HTTPMethod) { m == Post }
  predicate IsPUT(m: HTTPMethod) { m == Put }
  predicate IsDELETE(m: HTTPMethod) { m == Delete }

  /** Safe methods do not change server state. */
  predicate IsSafe(m: HTTPMethod) { m == Get || m == Head || m == Options }

  predicate IsIdempotent(m: HTTPMethod)
  {
    match m
    case Get | Put | Delete | Head | Options | Trace => true
    case Post | Patch | Connect => false
  }

  predicate IsCacheable(m: HTTPMethod) { m == Get || m == Head || m == Options }

  predicate ModifiesState(m: HTTPMethod)
  {
    match m
    case Post | Put | Patch | Delete => true
    case _ => false
  }

  /** The methods of `AllMethods` that satisfy `p`, in declaration order. */
  function Select(p: HTTPMethod -> bool, ms: seq<HTTPMethod>): seq<HTTPMethod>
  {
    if ms == [] then [] else (if p(ms[0]) then [ms[0]] else []) + Select(p, ms[1..])
  }

  /** The flags hold of exactly the methods their documentation lists. */
  lemma SafeExtent()
    ensures Select(IsSafe, AllMethods) == [Get, Head, Options]
  {
  }

  lemma IdempotentExtent()
    ensures Select(IsIdempotent, AllMethods) == [Get, Put, Delete, Head, Options, Trace]
  {
  }

  lemma CacheableExtent()
    ensures Select(IsCacheable, AllMethods) == [Get, Head, Options]
  {
  }

  lemma ModifiesStateExtent()
    ensures Select(ModifiesState, AllMethods) == [Post, Put, Delete, Patch]
  {
  }

  /** Each of the four single-method tests holds of exactly one method. */
  lemma GetPostExtents()
    ensures Select(IsGET, AllMethods) == [Get]
    ensures Select(IsPOST, AllMethods) == [Post]
  {
  }

  lemma PutDeleteExtents()
    ensures Select(IsPUT, AllMethods) == [Put]
    ensures Select(IsDELETE, AllMethods) == [Delete]
  {
  }

  /** Safe methods are idempotent, cacheable exactly when safe, and never modify state. */
  lemma FlagRelations(m: HTTPMethod)
    ensures IsSafe(m) ==> IsIdempotent(m)
    ensures IsCacheable(m) <==> IsSafe(m)
    ensures IsSafe(m) ==> !ModifiesState(m)
    ensures ModifiesState(m) && IsIdempotent(m) <==> m == Put || m == Delete
  {
  }

  /** `HTTPRequestPayload`: the parameters to encode, if any, and the method. */
  datatype HTTPRequestPayload<P> = HTTPRequestPayload(parameters: Option<P>, httpMethod: HTTPMethod)

  /** `HTTPRequestPayload()` with its stored-property defaults. */
  function DefaultPayload<P>(parameters: Option<P> := None, httpMethod: HTTPMethod := Get): HTTPRequestPayload<P>
  {
    HTTPRequestPayload(parameters, httpMethod)
  }

  lemma PayloadDefaults<P>()
    ensures DefaultPayload<P>() == HTTPRequestPayload(None, Get)
  {
  }
}
