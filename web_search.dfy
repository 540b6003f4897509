/** `ResearchAssistant.search_web_content`: one SerpAPI search for a query qualified by
    the kind of result wanted, keeping the organic results whose link answers. */
module WebSearch {
  import opened Wrappers
  import opened Json
  import opened Services

  /** What `query += ...` appends for each search type that has a qualifier. */
  const DocumentsSuffix: string :=
    " filetype:pdf OR site:arxiv.org OR site:researchgate.net OR site:scholar.google.com"
  const ProfilesSuffix: string := " site:linkedin.com/in"
  const AcademicSuffix: string := " site:edu OR site:org research"

  /** Lines 111-116: the qualifier of a search type; "general" and every other type has
      none. */
  function Suffix(searchType: string): string
  {
    if searchType == "documents" then DocumentsSuffix
    else if searchType == "profiles" then ProfilesSuffix
    else if searchType == "academic" then AcademicSuffix
    else ""
  }

  /** The query sent for a search type, `None` where `query += suffix` raises. A string
      gets the suffix appended; a list (`+=` on a list is `extend`) gets its characters
      appended as one-character strings; any other value raises `TypeError`. Types
      without a qualifier never reach `+=`. */
  function Qualified(query: Value, searchType: string): Option<Value>
  {
    var suffix := Suffix(searchType);
    if suffix == "" then Some(query)
    else
      match query
      case Str(s) => Some(Str(s + suffix))
      case Arr(items) => Some(Arr(items + seq(|suffix|, i requires 0 <= i < |suffix| => Str([suffix[i]]))))
      case _ => None
  }

  /** The three qualified types append their fixed text to a string query, any other
      type sends the query unchanged, and qualifying fails exactly for a qualified type
      and a query that is neither a string nor a list. */
  lemma QualifiedSpec(query: Value, searchType: string)
    ensures searchType == "documents" && query.Str? ==> Qualified(query, searchType) == Some(Str(query.s + DocumentsSuffix))
    ensures searchType == "profiles" && query.Str? ==> Qualified(query, searchType) == Some(Str(query.s + ProfilesSuffix))
    ensures searchType == "academic" && query.Str? ==> Qualified(query, searchType) == Some(Str(query.s + AcademicSuffix))
    ensures searchType !in {"documents", "profiles", "academic"} ==> Qualified(query, searchType) == Some(query)
    ensures Qualified(query, searchType).None? <==>
      searchType in {"documents", "profiles", "academic"} && !query.Str? && !query.Arr?
  {
  }

  /** A search result as `search_web_content` returns it. */
  datatype Hit = Hit(title: string, url: string, description: string, source: string)

  /** `item.get("link", "")`. */
  function LinkOf(r: OrganicResult): string
  {
    r.link.GetOr("")
  }

  /** Lines 133-138: the hit made from an organic result. */
  function HitOf(env: Env, r: OrganicResult): Hit
  {
    Hit(r.title.GetOr(""), LinkOf(r), r.snippet.GetOr(""), env.netloc(LinkOf(r)))
  }

  /** The hits made from the results whose link is reachable, in the results' order. */
  function Kept(env: Env, results: seq<OrganicResult>): seq<Hit>
  {
    if results == [] then []
    else
      var first := if env.reachable(LinkOf(results[0])) then [HitOf(env, results[0])] else [];
      first + Kept(env, results[1..])
  }

  /** Filtering distributes over concatenation: the order of the results is kept. */
  lemma {:induction false} KeptAppend(env: Env, xs: seq<OrganicResult>, ys: seq<OrganicResult>)
    ensures Kept(env, xs + ys) == Kept(env, xs) + Kept(env, ys)
  {
    if xs == [] {
      assert xs + ys == ys;
    } else {
      assert (xs + ys)[1..] == xs[1..] + ys;
      KeptAppend(env, xs[1..], ys);
    }
  }

  /** A hit is kept exactly when it is made from a result whose link is reachable. */
  lemma {:induction false} KeptMember(env: Env, results: seq<OrganicResult>, h: Hit)
    ensures h in Kept(env, results) <==>
      exists i :: 0 <= i < |results| && env.reachable(LinkOf(results[i])) && h == HitOf(env, results[i])
  {
    if results != [] {
      KeptMember(env, results[1..], h);
      if h in Kept(env, results[1..]) {
        var i :| 0 <= i < |results[1..]| && env.reachable(LinkOf(results[1..][i])) && h == HitOf(env, results[1..][i]);
        assert results[1..][i] == results[i + 1];
      }
      if exists i :: 0 <= i < |results| && env.reachable(LinkOf(results[i])) && h == HitOf(env, results[i]) {
        var i :| 0 <= i < |results| && env.reachable(LinkOf(results[i])) && h == HitOf(env, results[i]);
        if i > 0 {
          assert results[i] == results[1..][i - 1];
        }
      }
    }
  }

  /** At most one hit per result; exactly one when every link is reachable. */
  lemma {:induction false} KeptLength(env: Env, results: seq<OrganicResult>)
    ensures |Kept(env, results)| <= |results|
    ensures (forall i :: 0 <= i < |results| ==> env.reachable(LinkOf(results[i]))) ==>
      Kept(env, results) == seq(|results|, i requires 0 <= i < |results| => HitOf(env, results[i]))
  {
    if results != [] {
      KeptLength(env, results[1..]);
      if forall i :: 0 <= i < |results| ==> env.reachable(LinkOf(results[i])) {
        assert forall i :: 0 <= i < |results[1..]| ==> env.reachable(LinkOf(results[1..][i]));
      }
    }
  }

  /** What `search_web_content(query, search_type)` returns: nothing without a key,
      when qualifying the query raises or when the search fails; otherwise the kept
      hits. */
  function SearchFor(a: Assistant, env: Env, query: Value, searchType: string): seq<Hit>
  {
    if !Configured(a.serpapiKey) then []
    else
      match Qualified(query, searchType)
      case None => []
      case Some(q) =>
        match env.serp(q)
        case None => []
        case Some(results) => Kept(env, results)
  }

  /** Which results are kept and what is made of them depends only on `verify_url` and
      `urlparse`. */
  lemma {:induction false} KeptCongruence(env: Env, other: Env, results: seq<OrganicResult>)
    requires other.reachable == env.reachable && other.netloc == env.netloc
    ensures Kept(other, results) == Kept(env, results)
  {
    if results != [] {
      KeptCongruence(env, other, results[1..]);
    }
  }

  /** A search depends only on SerpAPI, `verify_url` and `urlparse`. */
  lemma SearchForCongruence(a: Assistant, env: Env, other: Env, query: Value, searchType: string)
    requires other.serp == env.serp && other.reachable == env.reachable && other.netloc == env.netloc
    ensures SearchFor(a, other, query, searchType) == SearchFor(a, env, query, searchType)
  {
    var q := Qualified(query, searchType);
    if Configured(a.serpapiKey) && q.Some? && env.serp(q.value).Some? {
      KeptCongruence(env, other, env.serp(q.value).value);
    }
  }

  /** Every hit of a search has a reachable link. */
  lemma SearchForReachable(a: Assistant, env: Env, query: Value, searchType: string)
    ensures forall h :: h in SearchFor(a, env, query, searchType) ==> env.reachable(h.url)
  {
    forall h | h in SearchFor(a, env, query, searchType) ensures env.reachable(h.url) {
      var results := env.serp(Qualified(query, searchType).value).value;
      KeptMember(env, results, h);
    }
  }

  /** `verify_url("")` is `False`, since a request without a scheme raises; with a link
      check that agrees, no hit lacks a link. */
  lemma SearchForLinked(a: Assistant, env: Env, query: Value, searchType: string)
    requires !env.reachable("")
    ensures forall h :: h in SearchFor(a, env, query, searchType) ==> h.url != ""
  {
    SearchForReachable(a, env, query, searchType);
  }

  /** `search_web_content`: the loop over the organic results appends a hit for each
      result whose link `verify_url` accepts. */
  method SearchWebContent(a: Assistant, env: Env, query: Value, searchType: string) returns (results: seq<Hit>)
    ensures results == SearchFor(a, env, query, searchType)
  {
    if !Configured(a.serpapiKey) {
      return [];
    }
    var q := Qualified(query, searchType);
    if q.None? {
      return [];
    }
    var response := env.serp(q.value);
    if response.None? {
      return [];
    }
    var organic := response.value;
    results := [];
    for i := 0 to |organic|
      invariant results == Kept(env, organic[..i])
    {
      var item := organic[i];
      if env.reachable(LinkOf(item)) {
        results := results + [HitOf(env, item)];
      }
      KeptAppend(env, organic[..i], [item]);
      assert organic[..i + 1] == organic[..i] + [item];
    }
    assert organic[..|organic|] == organic;
  }
}
