/** What `generate_research_content` promises: an early failure when the model gives no
    text, the video cap, the preference of real search results over suggestions, the
    metadata counts, and which outside services a run depends on. */
module ResearchProperties {
  import opened Wrappers
  import opened Seqs
  import opened Text
  import opened Json
  import opened Services
  import opened Videos
  import opened WebSearch
  import opened Research

  /** Once the model has answered and both stages have run, the outcome is what the
      assembly builds from the parsed answer, the videos and the search results. */
  lemma OutcomeAssembled(a: Assistant, env: Env, req: Request, includeVideos: bool, includeWebSearch: bool)
    ensures var d := Decoded(env, req);
      d.Some? && VideoStage(a, env, d.value, includeVideos).Ok? && SearchStage(a, env, d.value, includeWebSearch).Ok? ==>
        ResearchOutcome(a, env, req, includeVideos, includeWebSearch)
        == Assemble(a, req, Models[0], includeWebSearch, d.value,
                    VideoStage(a, env, d.value, includeVideos).value, SearchStage(a, env, d.value, includeWebSearch).value)
  {
  }

  /** The assembly either succeeds or reports a `len()` failure as an internal error. */
  lemma AssembleOutcome(a: Assistant, req: Request, model: string, includeWebSearch: bool,
                        data: Dict, all: Option<seq<Video>>, h: Harvest)
    ensures var o := Assemble(a, req, model, includeWebSearch, data, all, h);
      o.Success? || InternalError <= o.error
  {
  }

  /** Once the model has answered, the outcome is a success or an internal error. */
  lemma AnsweredOutcome(a: Assistant, env: Env, req: Request, includeVideos: bool, includeWebSearch: bool)
    ensures var o := ResearchOutcome(a, env, req, includeVideos, includeWebSearch);
      Decoded(env, req).Some? ==> o.Success? || InternalError <= o.error
  {
    if Decoded(env, req).Some? {
      var data := Decoded(env, req).value;
      var o := ResearchOutcome(a, env, req, includeVideos, includeWebSearch);
      match VideoStage(a, env, data, includeVideos)
      case Raised(m) =>
        assert o == Failure(InternalError + m);
      case Ok(all) =>
        match SearchStage(a, env, data, includeWebSearch)
        case Raised(m) =>
          assert o == Failure(InternalError + m);
        case Ok(h) =>
          assert o == Assemble(a, req, Models[0], includeWebSearch, data, all, h);
          AssembleOutcome(a, req, Models[0], includeWebSearch, data, all, h);
    }
  }

  /** Lines 359-366: the run fails with "Failed to generate content from AI" exactly when
      the first model gives no text or only whitespace, and then nothing but the model
      is consulted: any other answers from YouTube, SerpAPI, the link check or the
      decoder give the same failure. */
  lemma LlmFailure(a: Assistant, env: Env, req: Request, includeVideos: bool, includeWebSearch: bool)
    ensures Decoded(env, req).None? <==>
      env.llm(req, Models[0]).None? || Strip(env.llm(req, Models[0]).value) == []
    ensures ResearchOutcome(a, env, req, includeVideos, includeWebSearch) == Failure(AiFailure) <==>
      Decoded(env, req).None?
    ensures Decoded(env, req).None? ==>
      forall other: Env :: other.llm == env.llm ==>
        ResearchOutcome(a, other, req, includeVideos, includeWebSearch) == Failure(AiFailure)
  {
    if Decoded(env, req).Some? {
      AnsweredOutcome(a, env, req, includeVideos, includeWebSearch);
      assert AiFailure[0] != InternalError[0];
    }
  }

  /** Lines 373-375: the videos are fetched only when asked for, with a YouTube key and
      truthy video queries; queries that cannot be iterated raise the `TypeError`;
      otherwise all videos found are collected, query after query. */
  lemma VideoStageSpec(a: Assistant, env: Env, data: Dict, includeVideos: bool)
    ensures VideoStage(a, env, data, includeVideos) == Ok(None) <==> !VideosRequested(a, data, includeVideos)
    ensures var queries := Get(data, "video_search_queries", Null);
      VideosRequested(a, data, includeVideos) && Iterate(queries).None? ==>
        VideoStage(a, env, data, includeVideos) == Raised(NotIterable(queries))
    ensures var queries := Get(data, "video_search_queries", Null);
      VideosRequested(a, data, includeVideos) && Iterate(queries).Some? ==>
        VideoStage(a, env, data, includeVideos) == Ok(Some(Concat(Iterate(queries).value, VideoSearch(a, env))))
  {
  }

  /** Lines 379 and 453-454: fetched videos are stored as the first `min(15, total)` of
      all videos found; the metadata reports the uncapped total and the stored number,
      which is at most 15. */
  lemma VideosCapped(a: Assistant, req: Request, model: string, includeWebSearch: bool,
                     data: Dict, all: seq<Video>, h: Harvest)
    ensures var o := Assemble(a, req, model, includeWebSearch, data, Some(all), h);
      o.Success? ==>
        && o.data.videos == Listed(all[..Min(VideoCap, |all|)])
        && o.data.metadata.totalVideos == |all|
        && o.data.metadata.videosIncluded == Min(VideoCap, |all|)
        && o.data.metadata.videosIncluded <= VideoCap
  {
    TakePrefix(all, VideoCap);
  }

  /** Each query asks for 3 videos, so if YouTube honours `maxResults` the total found is
      at most three per query. */
  lemma VideosPerQueryBound(a: Assistant, env: Env, queries: seq<Value>)
    requires forall q :: env.youtube(q, VideosPerQuery).Some? ==>
      |env.youtube(q, VideosPerQuery).value| <= VideosPerQuery
    ensures |Concat(queries, VideoSearch(a, env))| <= VideosPerQuery * |queries|
  {
    var f := VideoSearch(a, env);
    forall i | 0 <= i < |queries| ensures |f(queries[i])| <= VideosPerQuery {
      var q := queries[i];
      assert f(q) == VideosFor(a, env, q, VideosPerQuery);
    }
    ConcatBound(queries, f, VideosPerQuery);
  }

  /** Lines 440 and 453-454: when the videos are not fetched, the total is 0 and the
      stored videos are whatever the answer holds under "videos", which is nothing when
      it has no such key. */
  lemma VideosNotFetched(a: Assistant, req: Request, model: string, includeWebSearch: bool,
                         data: Dict, h: Harvest)
    ensures var o := Assemble(a, req, model, includeWebSearch, data, None, h);
      o.Success? ==>
        && o.data.videos == Suggested(Get(data, "videos", Arr([])))
        && o.data.metadata.totalVideos == 0
        && ("videos" !in data ==> o.data.metadata.videosIncluded == 0)
  {
  }

  /** The videos found depend only on YouTube and on how queries print. */
  lemma VideoStageCongruence(a: Assistant, env: Env, other: Env, data: Dict, includeVideos: bool)
    requires other.youtube == env.youtube && other.show == env.show
    ensures VideoStage(a, other, data, includeVideos) == VideoStage(a, env, data, includeVideos)
  {
    var queries := Get(data, "video_search_queries", Null);
    if VideosRequested(a, data, includeVideos) && Iterate(queries).Some? {
      var qs := Iterate(queries).value;
      forall i | 0 <= i < |qs| ensures VideoSearch(a, other)(qs[i]) == VideoSearch(a, env)(qs[i]) {
        assert VideosFor(a, other, qs[i], VideosPerQuery) == VideosFor(a, env, qs[i], VideosPerQuery);
      }
      ConcatCongruence(qs, VideoSearch(a, other), VideoSearch(a, env));
    }
  }

  lemma DocumentsCongruence(a: Assistant, env: Env, other: Env, query: Value)
    requires other.serp == env.serp && other.reachable == env.reachable && other.netloc == env.netloc
    requires other.show == env.show
    ensures DocumentsFound(a, other, query) == DocumentsFound(a, env, query)
  {
    SearchForCongruence(a, env, other, query, "documents");
  }

  lemma ResourcesCongruence(a: Assistant, env: Env, other: Env, query: Value)
    requires other.serp == env.serp && other.reachable == env.reachable && other.netloc == env.netloc
    requires other.show == env.show
    ensures ResourcesFound(a, other, query) == ResourcesFound(a, env, query)
  {
    SearchForCongruence(a, env, other, query, "general");
  }

  lemma ProfilesCongruence(a: Assistant, env: Env, other: Env, query: Value)
    requires other.serp == env.serp && other.reachable == env.reachable && other.netloc == env.netloc
    requires other.show == env.show
    ensures ProfilesFound(a, other, query) == ProfilesFound(a, env, query)
  {
    SearchForCongruence(a, env, other, query, "profiles");
  }

  /** The web results depend only on SerpAPI, the link check, `urlparse` and how
      queries print. */
  lemma SearchStageCongruence(a: Assistant, env: Env, other: Env, data: Dict, includeWebSearch: bool)
    requires other.serp == env.serp && other.reachable == env.reachable && other.netloc == env.netloc
    requires other.show == env.show
    ensures SearchStage(a, other, data, includeWebSearch) == SearchStage(a, env, data, includeWebSearch)
  {
    var dq := Iterate(Get(data, "document_search_queries", Arr([])));
    if dq.Some? {
      forall i | 0 <= i < |dq.value|
        ensures DocumentSearch(a, other)(dq.value[i]) == DocumentSearch(a, env)(dq.value[i])
      {
        DocumentsCongruence(a, env, other, dq.value[i]);
      }
      ConcatCongruence(dq.value, DocumentSearch(a, other), DocumentSearch(a, env));
    }
    var wq := Iterate(Get(data, "web_search_queries", Arr([])));
    if wq.Some? {
      forall i | 0 <= i < |wq.value|
        ensures ResourceSearch(a, other)(wq.value[i]) == ResourceSearch(a, env)(wq.value[i])
      {
        ResourcesCongruence(a, env, other, wq.value[i]);
      }
      ConcatCongruence(wq.value, ResourceSearch(a, other), ResourceSearch(a, env));
    }
    var lq := Iterate(Get(data, "linkedin_search_queries", Arr([])));
    if lq.Some? {
      forall i | 0 <= i < |lq.value|
        ensures ProfileSearch(a, other)(lq.value[i]) == ProfileSearch(a, env)(lq.value[i])
      {
        ProfilesCongruence(a, env, other, lq.value[i]);
      }
      ConcatCongruence(lq.value, ProfileSearch(a, other), ProfileSearch(a, env));
    }
  }

  /** When the videos are not fetched, YouTube is never consulted: any other YouTube
      answers give the same outcome. */
  lemma VideosNotFetchedCallsNothing(a: Assistant, env: Env, req: Request, includeVideos: bool,
                                     includeWebSearch: bool, youtube: (Value, int) -> Option<seq<VideoItem>>)
    ensures Decoded(env, req).Some? && !VideosRequested(a, Decoded(env, req).value, includeVideos) ==>
      ResearchOutcome(a, env.(youtube := youtube), req, includeVideos, includeWebSearch)
      == ResearchOutcome(a, env, req, includeVideos, includeWebSearch)
  {
    var other := env.(youtube := youtube);
    assert Decoded(other, req) == Decoded(env, req);
    if Decoded(env, req).Some? {
      SearchStageCongruence(a, env, other, Decoded(env, req).value, includeWebSearch);
    }
  }

  /** Lines 386 and 426-428: without web search nothing is collected, so the documents
      and profiles are the model's suggestions and there are no links. */
  lemma WebSearchOff(a: Assistant, env: Env, req: Request, model: string, includeWebSearch: bool,
                     data: Dict, all: Option<seq<Video>>)
    requires !SearchRequested(a, includeWebSearch)
    ensures SearchStage(a, env, data, includeWebSearch) == Ok(Harvest([], [], []))
    ensures var o := Assemble(a, req, model, includeWebSearch, data, all, Harvest([], [], []));
      o.Success? ==>
        && o.data.documents == Suggested(Get(data, "suggested_sources", Arr([])))
        && o.data.profiles == Suggested(Get(data, "suggested_experts", Arr([])))
        && o.data.links == [] && o.data.metadata.linksFound == 0
  {
  }

  /** Without web search, SerpAPI, the link check and `urlparse` are never consulted. */
  lemma WebSearchOffCallsNothing(a: Assistant, env: Env, req: Request, includeVideos: bool,
                                 includeWebSearch: bool, serp: Value -> Option<seq<OrganicResult>>,
                                 reachable: string -> bool, netloc: string -> string)
    requires !SearchRequested(a, includeWebSearch)
    ensures ResearchOutcome(a, env.(serp := serp, reachable := reachable, netloc := netloc), req,
                            includeVideos, includeWebSearch)
         == ResearchOutcome(a, env, req, includeVideos, includeWebSearch)
  {
    var other := env.(serp := serp, reachable := reachable, netloc := netloc);
    assert Decoded(other, req) == Decoded(env, req);
    if Decoded(env, req).Some? {
      VideoStageCongruence(a, env, other, Decoded(env, req).value, includeVideos);
    }
  }

  /** Lines 426-459: real documents and profiles are preferred over the model's
      suggestions, the links are the real links, and the rest of the result echoes the
      request and the parsed answer. */
  lemma FinalSelection(a: Assistant, req: Request, model: string, includeWebSearch: bool,
                       data: Dict, all: Option<seq<Video>>, h: Harvest)
    ensures var o := Assemble(a, req, model, includeWebSearch, data, all, h);
      o.Success? ==>
        && (h.documents != [] ==> o.data.documents == Listed(h.documents))
        && (h.documents == [] ==> o.data.documents == Suggested(Get(data, "suggested_sources", Arr([]))))
        && (h.profiles != [] ==> o.data.profiles == Listed(h.profiles))
        && (h.profiles == [] ==> o.data.profiles == Suggested(Get(data, "suggested_experts", Arr([]))))
        && o.data.links == h.resources
        && o.data.request == req
        && o.data.content == Get(data, "content", Str(""))
        && o.data.searchQueries == Queries(Get(data, "video_search_queries", Arr([])),
             Get(data, "document_search_queries", Arr([])), Get(data, "web_search_queries", Arr([])),
             Get(data, "linkedin_search_queries", Arr([])))
        && o.data.metadata.aiModel == model
        && o.data.metadata.webSearchEnabled == (includeWebSearch && a.serpapiKey.Some?)
  {
  }

  /** Lines 453-457: every count in the metadata is the length of the list it counts. */
  lemma Counts(a: Assistant, req: Request, model: string, includeWebSearch: bool,
               data: Dict, all: Option<seq<Video>>, h: Harvest)
    ensures var o := Assemble(a, req, model, includeWebSearch, data, all, h);
      o.Success? ==>
        && Count(o.data.videos) == Ok(o.data.metadata.videosIncluded)
        && Count(o.data.documents) == Ok(o.data.metadata.documentsFound)
        && Count(o.data.profiles) == Ok(o.data.metadata.profilesFound)
        && o.data.metadata.linksFound == |o.data.links|
  {
  }

  /** Line 455: with no documents found, a `suggested_sources` without a length makes
      the run fail with an internal error. */
  lemma SuggestedSourcesWithoutLength(a: Assistant, req: Request, model: string, includeWebSearch: bool,
                                      data: Dict, all: Option<seq<Video>>, h: Harvest)
    requires Count(StoredVideos(data, all)).Ok?
    requires h.documents == [] && Len(Get(data, "suggested_sources", Arr([]))).None?
    ensures Assemble(a, req, model, includeWebSearch, data, all, h)
         == Failure(InternalError + HasNoLen(Get(data, "suggested_sources", Arr([]))))
  {
  }

  /** Lines 386-388: with web search on, document queries that cannot be iterated raise
      the `TypeError`, before any search runs. */
  lemma DocumentQueriesNotIterable(a: Assistant, env: Env, data: Dict, includeWebSearch: bool)
    requires SearchRequested(a, includeWebSearch)
    requires Iterate(Get(data, "document_search_queries", Arr([]))).None?
    ensures SearchStage(a, env, data, includeWebSearch)
         == Raised(NotIterable(Get(data, "document_search_queries", Arr([]))))
  {
  }

  /** One documents search: every document has a link that answered, is a research
      paper exactly when "pdf" occurs in its URL and a web page otherwise, and names
      the query that found it. */
  lemma DocumentsFoundSpec(a: Assistant, env: Env, query: Value)
    ensures forall doc :: doc in DocumentsFound(a, env, query) ==>
      && env.reachable(doc.url)
      && (doc.kind == "research_paper" <==> IsInfix("pdf", doc.url))
      && (doc.kind != "research_paper" ==> doc.kind == "webpage")
      && doc.relevance == FoundVia + Show(env, query)
  {
    var hits := SearchFor(a, env, query, "documents");
    SearchForReachable(a, env, query, "documents");
    forall doc | doc in DocumentsFound(a, env, query) ensures env.reachable(doc.url) {
      var k :| 0 <= k < |hits| && doc == DocumentOf(env, hits[k], query);
      assert hits[k] in hits;
    }
  }

  /** One general search: every resource has a link that answered and is typed
      "resource". */
  lemma ResourcesFoundSpec(a: Assistant, env: Env, query: Value)
    ensures forall r :: r in ResourcesFound(a, env, query) ==>
      env.reachable(r.url) && r.kind == "resource" && r.relevance == FoundVia + Show(env, query)
  {
    var hits := SearchFor(a, env, query, "general");
    SearchForReachable(a, env, query, "general");
    forall r | r in ResourcesFound(a, env, query) ensures env.reachable(r.url) {
      var k :| 0 <= k < |hits| && r == ResourceOf(env, hits[k], query);
      assert hits[k] in hits;
    }
  }

  /** One profiles search: every profile has a LinkedIn URL that answered, a name made
      from the result's title, and contact potential "Medium". */
  lemma ProfilesFoundSpec(a: Assistant, env: Env, query: Value)
    ensures forall p :: p in ProfilesFound(a, env, query) ==>
      && env.reachable(p.linkedinUrl) && p.contactPotential == "Medium"
      && p.relevance == FoundVia + Show(env, query)
      && exists h :: h in SearchFor(a, env, query, "profiles") && h.url == p.linkedinUrl && p.name == ProfileName(h.title)
  {
    var hits := SearchFor(a, env, query, "profiles");
    SearchForReachable(a, env, query, "profiles");
    forall p | p in ProfilesFound(a, env, query)
      ensures env.reachable(p.linkedinUrl)
      ensures exists h :: h in hits && h.url == p.linkedinUrl && p.name == ProfileName(h.title)
    {
      var k :| 0 <= k < |hits| && p == ProfileOf(env, hits[k], query);
      assert hits[k] in hits;
    }
  }

  /** Lines 388-398: every document collected has a link that answered and is a research
      paper exactly when "pdf" occurs in its URL, a web page otherwise. */
  lemma FoundDocuments(a: Assistant, env: Env, data: Dict, includeWebSearch: bool, h: Harvest)
    requires SearchStage(a, env, data, includeWebSearch) == Ok(h)
    ensures forall doc :: doc in h.documents ==>
      && env.reachable(doc.url)
      && (doc.kind == "research_paper" <==> IsInfix("pdf", doc.url))
      && (doc.kind != "research_paper" ==> doc.kind == "webpage")
      && FoundVia <= doc.relevance
  {
    if SearchRequested(a, includeWebSearch) {
      var qs := Iterate(Get(data, "document_search_queries", Arr([]))).value;
      var f := DocumentSearch(a, env);
      forall doc | doc in h.documents
        ensures env.reachable(doc.url) && (doc.kind == "research_paper" <==> IsInfix("pdf", doc.url))
        ensures doc.kind != "research_paper" ==> doc.kind == "webpage"
        ensures FoundVia <= doc.relevance
      {
        ConcatMember(qs, f, doc);
        var i :| 0 <= i < |qs| && doc in f(qs[i]);
        DocumentsFoundSpec(a, env, qs[i]);
      }
    }
  }

  /** Lines 401-411: every link collected answered and is typed "resource". */
  lemma FoundResources(a: Assistant, env: Env, data: Dict, includeWebSearch: bool, h: Harvest)
    requires SearchStage(a, env, data, includeWebSearch) == Ok(h)
    ensures forall r :: r in h.resources ==> env.reachable(r.url) && r.kind == "resource" && FoundVia <= r.relevance
  {
    if SearchRequested(a, includeWebSearch) {
      var qs := Iterate(Get(data, "web_search_queries", Arr([]))).value;
      var f := ResourceSearch(a, env);
      forall r | r in h.resources ensures env.reachable(r.url) && r.kind == "resource" && FoundVia <= r.relevance {
        ConcatMember(qs, f, r);
        var i :| 0 <= i < |qs| && r in f(qs[i]);
        ResourcesFoundSpec(a, env, qs[i]);
      }
    }
  }

  /** Lines 414-423: every profile collected has a LinkedIn URL that answered and
      contact potential "Medium". */
  lemma FoundProfiles(a: Assistant, env: Env, data: Dict, includeWebSearch: bool, h: Harvest)
    requires SearchStage(a, env, data, includeWebSearch) == Ok(h)
    ensures forall p :: p in h.profiles ==>
      env.reachable(p.linkedinUrl) && p.contactPotential == "Medium" && FoundVia <= p.relevance
  {
    if SearchRequested(a, includeWebSearch) {
      var qs := Iterate(Get(data, "linkedin_search_queries", Arr([]))).value;
      var f := ProfileSearch(a, env);
      forall p | p in h.profiles
        ensures env.reachable(p.linkedinUrl) && p.contactPotential == "Medium" && FoundVia <= p.relevance
      {
        ConcatMember(qs, f, p);
        var i :| 0 <= i < |qs| && p in f(qs[i]);
        ProfilesFoundSpec(a, env, qs[i]);
      }
    }
  }

  /** Line 386 against line 458: an empty SerpAPI key runs no search, yet the metadata
      reports web search as enabled. */
  lemma EmptySerpKeyReported(a: Assistant, env: Env, req: Request, model: string, includeWebSearch: bool,
                             data: Dict, all: Option<seq<Video>>)
    requires includeWebSearch && a.serpapiKey == Some("")
    ensures SearchStage(a, env, data, includeWebSearch) == Ok(Harvest([], [], []))
    ensures var o := Assemble(a, req, model, includeWebSearch, data, all, Harvest([], [], []));
      o.Success? ==> o.data.metadata.webSearchEnabled && o.data.links == [] && o.data.metadata.linksFound == 0
  {
  }
}
